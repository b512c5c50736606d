/** The steps of `Edge` that one whole call of a method of the edge's session performs when no other
    task comes in between, and what they amount to. */
module SessionSteps {
  import opened Wrappers
  import opened Frames
  import opened Runs
  import opened Flow
  import opened Edge
  import opened EdgeRuns
  import opened EdgeCounting

  /** What the edge does with an input, and the frames it queues. */
  function Fed(e: Edge, input: Input): (Edge, seq<Frame>) {
    (Feed(e, input), if input.Act? then Step(e, input.a).1 else [])
  }

  lemma RunLast(e: Edge, trace: seq<Input>, input: Input)
    ensures Run(e, trace + [input]) == Feed(Run(e, trace), input)
  {
    RunSplit(e, trace, [input]);
    RunStep(Run(e, trace), input, []);
    assert [input] == [input] + [];
  }

  lemma Parts(trace: seq<Input>) returns (before: seq<Input>, last: Input)
    requires trace != []
    ensures trace == before + [last] && |before| < |trace|
  {
    before, last := trace[..|trace| - 1], trace[|trace| - 1];
  }

  lemma PlayAndRun(e: Edge, queue: seq<Frame>, before: seq<Input>, input: Input)
    requires Play(Fed, e, queue, before).0 == Run(e, before)
    ensures Play(Fed, e, queue, before + [input]).0 == Run(e, before + [input])
  {
    PlayMore(Fed, e, queue, before, input);
    RunLast(e, before, input);
  }

  /** The states of a trace are the states of a run. */
  lemma {:induction false} PlayIsRun(e: Edge, queue: seq<Frame>, trace: seq<Input>)
    ensures Play(Fed, e, queue, trace).0 == Run(e, trace)
    decreases |trace|
  {
    if trace != [] {
      var before, last := Parts(trace);
      PlayIsRun(e, queue, before);
      PlayAndRun(e, queue, before, last);
    }
  }

  /** A call made in a state that a run has reached extends that run by the call's trace. So whatever
      is proved of every run of the edge holds before, between and after calls. */
  lemma CallExtendsRun(limit: nat, window: nat, inputs: seq<Input>, queue: seq<Frame>, trace: seq<Input>)
    ensures Play(Fed, Run(Init(limit, window), inputs), queue, trace).0 == Run(Init(limit, window), inputs + trace)
  {
    PlayIsRun(Run(Init(limit, window), inputs), queue, trace);
    RunSplit(Init(limit, window), inputs, trace);
  }

  /** For instance: after any call, in any such state, bodies are words, a finished handler has left
      no entry, and the counter tells the table. */
  lemma CallsKeepPromises(limit: nat, window: nat, inputs: seq<Input>, queue: seq<Frame>, trace: seq<Input>, i: nat)
    ensures
      var e := Play(Fed, Run(Init(limit, window), inputs), queue, trace).0;
      && EdgeInv(e)
      && |Table(e)| == Counter(e) + Tally(e.streams, Uncounted) - Tally(e.streams, BeingClosed)
      && (i in e.streams ==>
            && Word(e.streams[i].handed)
            && (e.streams[i].handler.Done? ==> i !in Table(e)))
  {
    CallExtendsRun(limit, window, inputs, queue, trace);
    InitOk(limit, window);
    RunKeeps(Init(limit, window), inputs + trace);
    CounterTracksTable(limit, window, inputs + trace);
    BodiesAreWords(limit, window, inputs + trace, i);
    FinishedHandlersLeaveNothing(limit, window, inputs + trace, i);
  }

  /** What a whole call of `close_stream` does. */
  function ClosedNow(e: Edge, id: nat): Edge {
    if id in e.streams && e.streams[id].inTable then
      e.(streams := e.streams[id := e.streams[id].(inTable := false, closer := Finished)],
         openStreams := (e.openStreams + U64 - 1) % U64)
    else e
  }

  /** Extends a trace by a step whose effect is known. */
  lemma Extend(e: Edge, queue: seq<Frame>, trace: seq<Input>, input: Input, e1: Edge, q1: seq<Frame>, e2: Edge, q2: seq<Frame>)
    requires Play(Fed, e, queue, trace) == (e1, q1)
    requires Feed(e1, input) == e2 && q1 + Fed(e1, input).1 == q2
    ensures Play(Fed, e, queue, trace + [input]) == (e2, q2)
  {
    PlayMore(Fed, e, queue, trace, input);
  }

  // ---- the steps a method performs, one by one ------------------------------------------------

  /** A local step and what it is known to do. */
  lemma LocalStep(e: Edge, q: seq<Frame>, id: nat, a: EdgeLocal, st: EdgeStream, out: seq<Frame>)
    requires id in e.streams && LocalMove(id, e.window, e.queueOpen, e.streams[id], a) == Some(EdgeMove(st, out))
    ensures Feed(e, Act(Do(id, a))) == e.(streams := e.streams[id := st]) && q + Fed(e, Act(Do(id, a))).1 == q + out
  {
  }

  lemma CountDownStep(e: Edge, q: seq<Frame>, id: nat)
    requires id in e.streams && e.streams[id].closer.SemaphoreClosed?
    ensures Feed(e, Act(CountDown(id))) ==
      e.(streams := e.streams[id := e.streams[id].(closer := Finished)], openStreams := (e.openStreams + U64 - 1) % U64)
    ensures q + Fed(e, Act(CountDown(id))).1 == q
  {
  }

  /** The two atomics of `close_stream` after the removal. */
  function FinishTrace(id: nat): seq<Input> {
    [Act(Do(id, Handle(CloseSemaphore)))] + [Act(CountDown(id))]
  }

  lemma FinishSteps(e: Edge, q: seq<Frame>, id: nat)
    requires id in e.streams && e.streams[id].closer.Removed?
    ensures Play(Fed, e, q, FinishTrace(id)) ==
      (e.(streams := e.streams[id := e.streams[id].(closer := Finished)], openStreams := (e.openStreams + U64 - 1) % U64), q)
  {
    var st := e.streams[id].(closer := SemaphoreClosed);
    var e1 := e.(streams := e.streams[id := st]);
    LocalStep(e, q, id, Handle(CloseSemaphore), st, []);
    assert q + [] == q;
    Extend(e, q, [], Act(Do(id, Handle(CloseSemaphore))), e, q, e1, q);
    assert [] + [Act(Do(id, Handle(CloseSemaphore)))] == [Act(Do(id, Handle(CloseSemaphore)))];
    CountDownStep(e1, q, id);
    var e2 := e1.(streams := e1.streams[id := st.(closer := Finished)], openStreams := (e.openStreams + U64 - 1) % U64);
    Extend(e, q, [Act(Do(id, Handle(CloseSemaphore)))], Act(CountDown(id)), e1, q, e2, q);
    PutTwice(e.streams, id, st, st.(closer := Finished));
  }

  /** The five atomics of `open_http_stream` before the frame is queued. */
  function OpenTrace(id: nat): seq<Input> {
    [Act(Admit)] + [Act(Allocate)] + [Act(Do(id, Handle(Insert)))] + [Act(Count(id))]
  }

  function CountedStream(window: nat): EdgeStream {
    Fresh(window).(handler := Counted, inTable := true)
  }

  lemma OpenSteps(e: Edge, q: seq<Frame>)
    requires e.limit > 0 ==> e.openStreams < e.limit
    ensures Play(Fed, e, q, OpenTrace(e.nextStreamId)) ==
      (e.(nextStreamId := e.nextStreamId + 1, openStreams := (e.openStreams + 1) % U64,
          streams := e.streams[e.nextStreamId := CountedStream(e.window)]), q)
  {
    var id := e.nextStreamId;
    var st := Fresh(e.window);
    assert q + [] == q;
    var e1 := e.(admitted := e.admitted + 1);
    Extend(e, q, [], Act(Admit), e, q, e1, q);
    assert [] + [Act(Admit)] == [Act(Admit)];
    var e2 := e.(nextStreamId := id + 1, streams := e.streams[id := st]);
    Extend(e, q, [Act(Admit)], Act(Allocate), e1, q, e2, q);
    var st3 := st.(handler := Inserted, inTable := true);
    var e3 := e2.(streams := e2.streams[id := st3]);
    LocalStep(e2, q, id, Handle(Insert), st3, []);
    Extend(e, q, [Act(Admit)] + [Act(Allocate)], Act(Do(id, Handle(Insert))), e2, q, e3, q);
    var e4 := e3.(openStreams := (e.openStreams + 1) % U64, streams := e3.streams[id := st3.(handler := Counted)]);
    Extend(e, q, [Act(Admit)] + [Act(Allocate)] + [Act(Do(id, Handle(Insert)))], Act(Count(id)), e3, q, e4, q);
    assert e4.streams == e.streams[id := CountedStream(e.window)];
  }

  /** Removal by whoever gets there first, and then the two atomics that only that caller performs. */
  lemma CloseSteps(e: Edge, q: seq<Frame>, id: nat)
    requires id in Table(e)
    ensures Play(Fed, Put(e, id, Close(e.streams[id])), q, FinishTrace(id)) == (ClosedNow(e, id), q)
  {
    var e1 := Put(e, id, Close(e.streams[id]));
    FinishSteps(e1, q, id);
    assert e1.streams[id := e1.streams[id].(closer := Finished)] == ClosedNow(e, id).streams;
  }

  // ---- opening and tearing down ---------------------------------------------------------------

  function OpenedTrace(id: nat): seq<Input> {
    OpenTrace(id) + [Act(Do(id, Handle(SendOpen)))]
  }

  /** A stream that has been opened. */
  function Opened(e: Edge): Edge {
    e.(nextStreamId := e.nextStreamId + 1, openStreams := (e.openStreams + 1) % U64,
       streams := e.streams[e.nextStreamId := CountedStream(e.window).(handler := Waiting, announced := true)])
  }

  lemma OpenedSteps(e: Edge, q: seq<Frame>)
    requires (e.limit > 0 ==> e.openStreams < e.limit) && e.queueOpen
    ensures Play(Fed, e, q, OpenedTrace(e.nextStreamId)) == (Opened(e), q + [Frame.Open(e.nextStreamId, e.window)])
  {
    var id := e.nextStreamId;
    OpenSteps(e, q);
    var e1 := Play(Fed, e, q, OpenTrace(id)).0;
    LocalStep(e1, q, id, Handle(SendOpen), CountedStream(e.window).(handler := Waiting, announced := true), [Frame.Open(id, e.window)]);
    PlayMore(Fed, e, q, OpenTrace(id), Act(Do(id, Handle(SendOpen))));
    assert Opened(e).streams == e1.streams[id := CountedStream(e.window).(handler := Waiting, announced := true)];
  }

  /** A stream in the table whose Open could not be queued. */
  function Unannounced(e: Edge): Edge {
    e.(nextStreamId := e.nextStreamId + 1, openStreams := (e.openStreams + 1) % U64,
       streams := e.streams[e.nextStreamId := CountedStream(e.window).(handler := OpenFailed)])
  }

  lemma UnannouncedSteps(e: Edge, q: seq<Frame>)
    requires (e.limit > 0 ==> e.openStreams < e.limit) && !e.queueOpen
    ensures Play(Fed, e, q, OpenedTrace(e.nextStreamId)) == (Unannounced(e), q)
  {
    var id := e.nextStreamId;
    OpenSteps(e, q);
    var e1 := Play(Fed, e, q, OpenTrace(id)).0;
    assert q + [] == q;
    LocalStep(e1, q, id, Handle(SendOpen), CountedStream(e.window).(handler := OpenFailed), []);
    PlayMore(Fed, e, q, OpenTrace(id), Act(Do(id, Handle(SendOpen))));
    assert Unannounced(e).streams == e1.streams[id := CountedStream(e.window).(handler := OpenFailed)];
  }

  // ---- a task that closes its stream ---------------------------------------------------------------

  /** The step that removes the entry, and what its caller does next if it was the one to remove it. */
  function ShutTrace(e: Edge, id: nat, a: EdgeLocal): seq<Input> {
    [Act(Do(id, a))] + if id in Table(e) then FinishTrace(id) else []
  }

  /** The stream after that, when the step itself leaves it as `st`. */
  function Shut(e: Edge, id: nat, st: EdgeStream): Edge {
    if id in Table(e) then
      e.(streams := e.streams[id := st.(closer := Finished)], openStreams := (e.openStreams + U64 - 1) % U64)
    else e.(streams := e.streams[id := st])
  }

  lemma ShutIs(e: Edge, e1: Edge, id: nat, st: EdgeStream)
    requires id in Table(e) && e1 == e.(streams := e.streams[id := st])
    ensures e1.(streams := e1.streams[id := e1.streams[id].(closer := Finished)], openStreams := (e1.openStreams + U64 - 1) % U64)
      == Shut(e, id, st)
  {
    PutTwice(e.streams, id, st, st.(closer := Finished));
  }

  lemma LocalRun(e: Edge, q: seq<Frame>, id: nat, a: EdgeLocal, st: EdgeStream, out: seq<Frame>)
    requires id in e.streams && LocalMove(id, e.window, e.queueOpen, e.streams[id], a) == Some(EdgeMove(st, out))
    ensures Play(Fed, e, q, [Act(Do(id, a))]) == (e.(streams := e.streams[id := st]), q + out)
  {
    LocalStep(e, q, id, a, st, out);
    One(Fed, e, q, Act(Do(id, a)));
  }

  lemma ShutSteps(e: Edge, q: seq<Frame>, id: nat, a: EdgeLocal, st: EdgeStream)
    requires id in e.streams && LocalMove(id, e.window, e.queueOpen, e.streams[id], a) == Some(EdgeMove(st, []))
    requires id in Table(e) ==> st.closer.Removed?
    ensures Play(Fed, e, q, ShutTrace(e, id, a)) == (Shut(e, id, st), q)
  {
    LocalRun(e, q, id, a, st, []);
    assert q + [] == q;
    if id in Table(e) {
      var e1 := e.(streams := e.streams[id := st]);
      ShutIs(e, e1, id, st);
      FinishSteps(e1, q, id);
      Chain(Fed, e, q, [Act(Do(id, a))], FinishTrace(id), e1, q);
    } else {
      assert [Act(Do(id, a))] + [] == [Act(Do(id, a))];
    }
  }

  /** Who resets a stream: a handler at its timeout, the upload task when the client's body fails, or
      the guard of a response body that is dropped. */
  datatype Resetter = Timeout | FailedUpload | Guard

  predicate MayReset(st: EdgeStream, who: Resetter) {
    match who
    case Timeout => st.handler.TimedOut?
    case FailedUpload => st.abort.MustClose?
    case Guard => st.handler.BodyDropped?
  }

  function RemovalBy(who: Resetter): EdgeLocal {
    if who.FailedUpload? then Upload(PumpClose) else Handle(HandlerClose)
  }

  function NoticeBy(who: Resetter, fits: bool): EdgeLocal {
    if who.FailedUpload? then Upload(PumpReset) else Handle(SendReset(fits))
  }

  /** The stream after the removal, and after the notice. */
  function Withdrawn(st: EdgeStream, who: Resetter): EdgeStream {
    match who
    case Timeout => Close(st).(handler := TimedOutClosed)
    case FailedUpload => Close(st).(abort := MustReset)
    case Guard => Close(st).(handler := GuardClosed)
  }

  function Noticed(st: EdgeStream, who: Resetter): EdgeStream {
    match who
    case Timeout => st.(handler := Returning, reply := GatewayTimeout)
    case FailedUpload => st.(abort := NoAbort)
    case Guard => st.(handler := Done)
  }

  /** The edge after the whole call. */
  function ResetNow(e: Edge, id: nat, who: Resetter): Edge
    requires id in e.streams
  {
    ClosedNow(e, id).(streams := e.streams[id := Noticed(Closed(e.streams[id]), who)])
  }

  function ResetFrames(e: Edge, id: nat, who: Resetter, fits: bool): seq<Frame> {
    if e.queueOpen && (who.Guard? ==> fits) then [Frame.Reset(id)] else []
  }

  function ResetTrace(e: Edge, id: nat, who: Resetter, fits: bool): seq<Input> {
    ShutTrace(e, id, RemovalBy(who)) + [Act(Do(id, NoticeBy(who, fits)))]
  }

  lemma RemovalMoves(id: nat, window: nat, queueOpen: bool, st: EdgeStream, who: Resetter)
    requires MayReset(st, who)
    ensures LocalMove(id, window, queueOpen, st, RemovalBy(who)) == Some(EdgeMove(Withdrawn(st, who), []))
  {
  }

  ghost predicate NoticeGoes(e: Edge, id: nat, st: EdgeStream, who: Resetter, fits: bool) {
    var closed := if st.inTable then Withdrawn(st, who).(closer := Finished) else Withdrawn(st, who);
    LocalMove(id, e.window, e.queueOpen, closed, NoticeBy(who, fits)) ==
      Some(EdgeMove(Noticed(Closed(st), who), ResetFrames(e, id, who, fits)))
  }

  lemma TimeoutNotice(e: Edge, id: nat, st: EdgeStream, fits: bool)
    requires MayReset(st, Timeout)
    ensures NoticeGoes(e, id, st, Timeout, fits)
  {
  }

  lemma UploadNotice(e: Edge, id: nat, st: EdgeStream, fits: bool)
    requires MayReset(st, FailedUpload)
    ensures NoticeGoes(e, id, st, FailedUpload, fits)
  {
  }

  lemma GuardNotice(e: Edge, id: nat, st: EdgeStream, fits: bool)
    requires MayReset(st, Guard)
    ensures NoticeGoes(e, id, st, Guard, fits)
  {
  }

  lemma NoticeMoves(e: Edge, id: nat, st: EdgeStream, who: Resetter, fits: bool)
    requires MayReset(st, who)
    ensures NoticeGoes(e, id, st, who, fits)
  {
    match who
    case Timeout => TimeoutNotice(e, id, st, fits);
    case FailedUpload => UploadNotice(e, id, st, fits);
    case Guard => GuardNotice(e, id, st, fits);
  }

  /** `close_stream` and then a Reset, by whoever calls it, is a run of the protocol. */
  lemma ResetSteps(e: Edge, q: seq<Frame>, id: nat, who: Resetter, fits: bool)
    requires id in e.streams && MayReset(e.streams[id], who)
    ensures Play(Fed, e, q, ResetTrace(e, id, who, fits)) == (ResetNow(e, id, who), q + ResetFrames(e, id, who, fits))
  {
    var st := e.streams[id];
    RemovalMoves(id, e.window, e.queueOpen, st, who);
    ShutSteps(e, q, id, RemovalBy(who), Withdrawn(st, who));
    var e1 := Shut(e, id, Withdrawn(st, who));
    Chain(Fed, e, q, ShutTrace(e, id, RemovalBy(who)), [Act(Do(id, NoticeBy(who, fits)))], e1, q);
    NoticeMoves(e, id, st, who, fits);
    LocalRun(e1, q, id, NoticeBy(who, fits), Noticed(Closed(st), who), ResetFrames(e, id, who, fits));
    PutTwice(e.streams, id, e1.streams[id], Noticed(Closed(st), who));
  }

  /** The stream `id` after its opener has closed it and is about to return. */
  function GaveUp(e: Edge, id: nat): Edge {
    Shut(e, id, Close(At(e, id)).(handler := Returning, reply := if At(e, id).handler.OpenFailed? then TunnelNotFound else BadGateway))
  }

  function GiveUpTrace(id: nat): seq<Input> {
    [Act(Do(id, Handle(HandlerClose)))] + FinishTrace(id)
  }

  /** A handler whose Open could not be queued, or whose response head will not come, closes its
      stream and returns. */
  lemma GiveUpSteps(e: Edge, q: seq<Frame>, id: nat)
    requires id in Table(e) && (e.streams[id].handler.OpenFailed? || e.streams[id].handler.HeadLost?)
    ensures Play(Fed, e, q, GiveUpTrace(id)) == (GaveUp(e, id), q)
  {
    ShutSteps(e, q, id, Handle(HandlerClose), Close(e.streams[id]).(handler := Returning, reply := if e.streams[id].handler.OpenFailed? then TunnelNotFound else BadGateway));
  }

  /** A stream that could not be announced and was taken down again. */
  function OpenFailedNow(e: Edge): Edge {
    GaveUp(Unannounced(e), e.nextStreamId)
  }

  lemma FailedSteps(e: Edge, q: seq<Frame>)
    requires (e.limit > 0 ==> e.openStreams < e.limit) && !e.queueOpen
    ensures Play(Fed, e, q, OpenedTrace(e.nextStreamId) + GiveUpTrace(e.nextStreamId)) == (OpenFailedNow(e), q)
  {
    UnannouncedSteps(e, q);
    GiveUpSteps(Unannounced(e), q, e.nextStreamId);
    PlayThen(Fed, e, q, OpenedTrace(e.nextStreamId), GiveUpTrace(e.nextStreamId));
  }

  /** A stream closed from start to end. */
  function Closed(st: EdgeStream): EdgeStream {
    if st.inTable then st.(inTable := false, closer := Finished) else st
  }

  /** After `n` streams have been closed, with those of `left` still to go. */
  function PartlyClosed(e: Edge, left: set<nat>, n: nat): Edge {
    e.(streams := map i | i in e.streams :: if i in left then e.streams[i] else Closed(e.streams[i]),
       openStreams := (e.openStreams as int - n) % U64)
  }

  lemma LessOnce(counter: nat, n: nat)
    ensures ((counter as int - n) % U64 + U64 - 1) % U64 == (counter as int - (n + 1)) % U64
  {
  }

  lemma CloseOne(e: Edge, left: set<nat>, id: nat, n: nat)
    requires id in left && left <= Table(e)
    ensures ClosedNow(PartlyClosed(e, left, n), id) == PartlyClosed(e, left - {id}, n + 1)
  {
    LessOnce(e.openStreams, n);
    var m := PartlyClosed(e, left, n).streams[id := Closed(e.streams[id])];
    assert ClosedNow(PartlyClosed(e, left, n), id).streams == m;
    assert m == PartlyClosed(e, left - {id}, n + 1).streams;
  }

  lemma NoneClosed(e: Edge)
    requires e.openStreams < U64
    ensures PartlyClosed(e, Table(e), 0) == e
  {
    assert PartlyClosed(e, Table(e), 0).streams == e.streams;
  }

  /** The streams of `left` closed, one after the other. */
  function ClosedStreams(streams: map<nat, EdgeStream>, left: set<nat>): map<nat, EdgeStream> {
    map i | i in streams :: if i in left then Closed(streams[i]) else streams[i]
  }

  function ClosedSet(e: Edge, left: set<nat>): Edge {
    e.(streams := ClosedStreams(e.streams, left),
       openStreams := (e.openStreams as int - |left|) % U64)
  }

  lemma TeardownOne(e: Edge, q: seq<Frame>, left: set<nat>, i: nat)
    requires i in left && i in Table(e) && e.loop == Teardown(left)
    ensures Play(Fed, e, q, TeardownTrace(i)) == (ClosedNow(e, i).(loop := TeardownOf(left - {i})), q)
  {
    var e1 := e.(loop := TeardownOf(left - {i}));
    One(Fed, e, q, Act(TeardownClose(i)));
    assert q + [] == q;
    Chain(Fed, e, q, [Act(TeardownClose(i))], FinishTrace(i), Put(e1, i, Close(e.streams[i])), q);
    CloseSteps(e1, q, i);
  }

  lemma ClosedSetNext(e: Edge, left: set<nat>, i: nat)
    requires i in left && left <= Table(e)
    ensures left - {i} <= Table(ClosedNow(e, i))
    ensures ClosedSet(ClosedNow(e, i), left - {i}) == ClosedSet(e, left)
  {
    var e1 := ClosedNow(e, i);
    assert ClosedSet(e1, left - {i}).streams == ClosedSet(e, left).streams;
    assert |left - {i}| == |left| - 1;
    LessMore(e.openStreams, |left| - 1);
  }

  lemma LessMore(counter: nat, n: nat)
    ensures ((counter + U64 - 1) % U64 as int - n) % U64 == (counter as int - (n + 1)) % U64
  {
  }

  function TeardownTrace(i: nat): seq<Input> {
    [Act(TeardownClose(i))] + FinishTrace(i)
  }

  lemma SameClosed(e: Edge, left: set<nat>, i: nat, loop: EdgeLoop)
    requires i in left && left <= Table(e)
    ensures ClosedSet(ClosedNow(e, i).(loop := loop), left - {i}).(loop := EdgeLoop.Stopped) ==
      ClosedSet(e, left).(loop := EdgeLoop.Stopped)
  {
    ClosedSetNext(e, left, i);
  }

  lemma TeardownRest(e: Edge, q: seq<Frame>, trace: seq<Input>, e1: Edge, rest: seq<Input>, last: Edge)
    requires Play(Fed, e, q, trace) == (e1, q) && Play(Fed, e1, q, rest) == (last, q)
    ensures Play(Fed, e, q, trace + rest) == (last, q)
  {
    Chain(Fed, e, q, trace, rest, e1, q);
  }

  lemma ClosedKeeps(e: Edge, left: set<nat>, i: nat)
    requires i in left && left <= Table(e)
    ensures
      var e1 := ClosedNow(e, i).(loop := TeardownOf(left - {i}));
      e1.loop == TeardownOf(left - {i}) && left - {i} <= Table(e1) && e1.openStreams < U64
  {
  }

  /** Tearing every stream down is a run of the edge's read loop. */
  lemma {:induction false} TeardownSteps(e: Edge, q: seq<Frame>, left: set<nat>) returns (trace: seq<Input>)
    requires e.loop == TeardownOf(left) && left <= Table(e) && e.openStreams < U64
    ensures Play(Fed, e, q, trace) == (ClosedSet(e, left).(loop := EdgeLoop.Stopped), q)
    decreases |left|
  {
    if left == {} {
      trace := [];
      assert ClosedStreams(e.streams, left) == e.streams;
    } else {
      var i :| i in left;
      ClosedKeeps(e, left, i);
      var rest := TeardownSteps(ClosedNow(e, i).(loop := TeardownOf(left - {i})), q, left - {i});
      TeardownOne(e, q, left, i);
      SameClosed(e, left, i, TeardownOf(left - {i}));
      TeardownRest(e, q, TeardownTrace(i), ClosedNow(e, i).(loop := TeardownOf(left - {i})), rest,
                   ClosedSet(e, left).(loop := EdgeLoop.Stopped));
      trace := TeardownTrace(i) + rest;
    }
  }

  lemma AllIsTheTable(e: Edge)
    ensures PartlyClosed(e, {}, |Table(e)|) == ClosedSet(e, Table(e))
  {
    assert PartlyClosed(e, {}, |Table(e)|).streams == ClosedSet(e, Table(e)).streams;
  }

  // ---- frames from the agent ------------------------------------------------------------------

  function ChunkOf(f: Frame): Chunk {
    if f.Data? then Chunk.Data(f.payload) else if f.End? then Chunk.End else Chunk.Reset
  }

  predicate IsBody(f: Frame) {
    f.Data? || f.End? || f.Reset?
  }

  function Arrived(st: EdgeStream, f: Frame): EdgeStream {
    if f.End? then st.(endSeen := true) else st
  }

  /** The channel has room, or nobody holds its other end: `tx.send` does not wait. */
  predicate HasRoom(st: EdgeStream) {
    !st.rxAlive || |st.channel| < BODY_QUEUE
  }

  function Delivered(st: EdgeStream, chunk: Chunk): EdgeStream {
    if st.rxAlive then st.(channel := st.channel + [chunk], handed := st.handed + [chunk]) else st
  }

  function AfterDelivery(st: EdgeStream, f: Frame): EdgeLoop {
    if f.Data? then
      if !st.rxAlive then Discarding(f.id, f.payload)
      else if |f.payload| > 0 then Granting(f.id, ToU32(|f.payload|))
      else Ready
    else Discarding(f.id, [])
  }

  /** The edge after a body frame: a chunk for a stream it still has is put into the channel, or
      waits for room there; a stream is closed by End, by Reset, and when nobody reads it. */
  function Handled(e: Edge, f: Frame): Edge
    requires IsBody(f)
  {
    if f.id !in Table(e) then e
    else
      var st := Arrived(e.streams[f.id], f);
      if !HasRoom(st) then e.(streams := e.streams[f.id := st], loop := Delivering(f.id, ChunkOf(f)))
      else
        var e1 := e.(streams := e.streams[f.id := Delivered(st, ChunkOf(f))]);
        if AfterDelivery(st, f).Discarding? then ClosedNow(e1, f.id) else e1.(loop := AfterDelivery(st, f))
  }

  lemma ArriveSteps(e: Edge, q: seq<Frame>, f: ClientFrame)
    requires e.loop.Ready? && IsBody(f) && f.id in Table(e)
    ensures Play(Fed, e, q, [Arrives(f)]) ==
      (e.(streams := e.streams[f.id := Arrived(e.streams[f.id], f)], loop := Delivering(f.id, ChunkOf(f))), q)
  {
    One(Fed, e, q, Arrives(f));
    assert q + [] == q;
  }

  lemma DeliverSteps(e: Edge, q: seq<Frame>, f: Frame)
    requires IsBody(f) && f.id in e.streams && e.loop == Delivering(f.id, ChunkOf(f)) && HasRoom(e.streams[f.id])
    ensures Play(Fed, e, q, [Act(LoopDeliver)]) ==
      (e.(streams := e.streams[f.id := Delivered(e.streams[f.id], ChunkOf(f))], loop := AfterDelivery(e.streams[f.id], f)), q)
  {
    One(Fed, e, q, Act(LoopDeliver));
    assert q + [] == q;
  }

  function DiscardTrace(id: nat): seq<Input> {
    [Act(LoopClose)] + FinishTrace(id)
  }

  /** The read loop closes a stream it was discarding. */
  lemma DiscardSteps(e: Edge, q: seq<Frame>, id: nat)
    requires id in Table(e) && e.loop.Discarding? && e.loop.id == id
    ensures Play(Fed, e, q, DiscardTrace(id)) == (ClosedNow(e.(loop := Ready), id), q)
  {
    One(Fed, e, q, Act(LoopClose));
    assert q + [] == q;
    CloseSteps(e.(loop := Ready), q, id);
    PlayThen(Fed, e, q, [Act(LoopClose)], FinishTrace(id));
  }

  /** Returning credit is the read loop's next step. */
  lemma GrantSteps(e: Edge, q: seq<Frame>, id: nat, increment: nat)
    requires e.loop == Granting(id, increment) && id in e.streams
    ensures Play(Fed, e, q, [Act(LoopGrant)]) ==
      (e.(loop := Ready), q + if e.queueOpen then [Frame.WindowUpdate(id, increment)] else [])
  {
    One(Fed, e, q, Act(LoopGrant));
    assert e.streams[id := e.streams[id]] == e.streams;
  }

  function HandledTrace(e: Edge, f: ClientFrame): seq<Input>
    requires IsBody(f)
  {
    if f.id !in Table(e) then
      if f.Data? then [Arrives(f)] else [Arrives(f)] + [Act(LoopClose)]
    else
      var st := Arrived(e.streams[f.id], f);
      if !HasRoom(st) then [Arrives(f)]
      else if AfterDelivery(st, f).Discarding? then [Arrives(f)] + [Act(LoopDeliver)] + DiscardTrace(f.id)
      else [Arrives(f)] + [Act(LoopDeliver)]
  }

  lemma HandledLate(e: Edge, q: seq<Frame>, f: ClientFrame)
    requires e.loop.Ready? && IsBody(f) && f.id !in Table(e)
    ensures Play(Fed, e, q, HandledTrace(e, f)) == (e, q)
  {
    ArriveLate(e, q, f);
    if !f.Data? {
      CloseLate(e, q, f.id);
      PlayThen(Fed, e, q, [Arrives(f)], [Act(LoopClose)]);
    }
  }

  lemma ArriveLate(e: Edge, q: seq<Frame>, f: ClientFrame)
    requires e.loop.Ready? && IsBody(f) && f.id !in Table(e)
    ensures Play(Fed, e, q, [Arrives(f)]) == (e.(loop := if f.Data? then Ready else Discarding(f.id, [])), q)
  {
    One(Fed, e, q, Arrives(f));
    assert q + [] == q;
    if f.id in e.streams {
      assert e.streams[f.id := e.streams[f.id]] == e.streams;
    }
  }

  lemma CloseLate(e: Edge, q: seq<Frame>, id: nat)
    requires e.loop.Ready? && id !in Table(e)
    ensures Play(Fed, e.(loop := Discarding(id, [])), q, [Act(LoopClose)]) == (e, q)
  {
    One(Fed, e.(loop := Discarding(id, [])), q, Act(LoopClose));
    assert q + [] == q;
    if id in e.streams {
      assert e.streams[id := e.streams[id]] == e.streams;
    }
  }

  lemma DeliveredSteps(e: Edge, q: seq<Frame>, f: ClientFrame, st: EdgeStream)
    requires e.loop.Ready? && IsBody(f) && f.id in Table(e) && st == Arrived(e.streams[f.id], f) && HasRoom(st)
    ensures Play(Fed, e, q, [Arrives(f)] + [Act(LoopDeliver)]) ==
      (e.(streams := e.streams[f.id := Delivered(st, ChunkOf(f))], loop := AfterDelivery(st, f)), q)
  {
    ArriveSteps(e, q, f);
    var e1 := e.(streams := e.streams[f.id := st], loop := Delivering(f.id, ChunkOf(f)));
    DeliverSteps(e1, q, f);
    PlayThen(Fed, e, q, [Arrives(f)], [Act(LoopDeliver)]);
    assert e1.streams[f.id := Delivered(st, ChunkOf(f))] == e.streams[f.id := Delivered(st, ChunkOf(f))];
  }

  /** Handling a body frame is a run of the edge. */
  lemma HandledSteps(e: Edge, q: seq<Frame>, f: ClientFrame)
    requires e.loop.Ready? && IsBody(f)
    ensures Play(Fed, e, q, HandledTrace(e, f)) == (Handled(e, f), q)
  {
    if f.id !in Table(e) {
      HandledLate(e, q, f);
    } else {
      var st := Arrived(e.streams[f.id], f);
      if !HasRoom(st) {
        ArriveSteps(e, q, f);
      } else {
        DeliveredSteps(e, q, f, st);
        if AfterDelivery(st, f).Discarding? {
          var e1 := e.(streams := e.streams[f.id := Delivered(st, ChunkOf(f))], loop := AfterDelivery(st, f));
          Chain(Fed, e, q, [Arrives(f)] + [Act(LoopDeliver)], DiscardTrace(f.id), e1, q);
          DiscardSteps(e1, q, f.id);
        }
      }
    }
  }

  // ---- uploading ----------------------------------------------------------------------------

  /** The task that reads `payload` after `k` of its chunks have been queued. */
  function Uploaded(st: EdgeStream, payload: Bytes, k: nat): EdgeStream
    requires k <= |Pieces(payload)| && |Flatten(Pieces(payload)[..k])| <= st.permits
  {
    var cs := Pieces(payload);
    st.(pump := if k == |cs| then Idle else Sending(cs[k..]),
        permits := st.permits - |Flatten(cs[..k])|,
        body := st.body + payload,
        queued := st.queued + Flatten(cs[..k]))
  }

  lemma StartIs(st: EdgeStream, payload: Bytes)
    ensures Uploaded(st, payload, 0) == st.(pump := Sending(Pieces(payload)), body := st.body + payload)
  {
    assert Pieces(payload)[0..] == Pieces(payload);
    assert st.queued + [] == st.queued;
  }

  function UploadTrace(id: nat, payload: Bytes, k: nat): seq<Input> {
    if k == 0 then [Act(Do(id, Upload(ReadBody(payload))))]
    else UploadTrace(id, payload, k - 1) + RoundTrace(id)
  }

  predicate CanUpload(e: Edge, id: nat, payload: Bytes) {
    && id in e.streams
    && payload != []
    && var st := e.streams[id];
       st.announced && st.pump.Idle? && st.inTable && !SemaphoreShut(st)
  }

  lemma FlattenNext(cs: seq<Bytes>, k: nat)
    requires k < |cs|
    ensures Flatten(cs[..k + 1]) == Flatten(cs[..k]) + cs[k]
  {
    assert cs[..k + 1] == cs[..k] + [cs[k]];
    FlattenAppend(cs[..k], cs[k]);
  }

  /** Credit for the next chunk is taken. */
  function Paid(st: EdgeStream, payload: Bytes, k: nat): EdgeStream
    requires k < |Pieces(payload)| && |Flatten(Pieces(payload)[..k])| + |Pieces(payload)[k]| <= st.permits
  {
    var u := Uploaded(st, payload, k);
    u.(pump := Taken(Pieces(payload)[k..]), permits := u.permits - |Pieces(payload)[k]|)
  }

  lemma NextIs(st: EdgeStream, payload: Bytes, k: nat)
    requires k < |Pieces(payload)| && |Flatten(Pieces(payload)[..k])| + |Pieces(payload)[k]| <= st.permits
    ensures |Flatten(Pieces(payload)[..k + 1])| <= st.permits
    ensures
      var u := Paid(st, payload, k);
      u.(pump := AfterFrame(u.pump), queued := u.queued + Pieces(payload)[k]) == Uploaded(st, payload, k + 1)
  {
    var cs := Pieces(payload);
    FlattenNext(cs, k);
    assert cs[k..][1..] == cs[k + 1..];
    assert st.queued + Flatten(cs[..k]) + cs[k] == st.queued + (Flatten(cs[..k]) + cs[k]);
  }

  /** The task whose stream was gone when it looked it up. */
  function TurnedAway(st: EdgeStream, payload: Bytes): EdgeStream {
    st.(pump := Pump.Stopped, body := st.body + payload)
  }

  function AfterRound(st: EdgeStream, c: Bytes): EdgeStream
    requires st.pump.Sending? && st.pump.chunks != [] && |c| <= st.permits
  {
    st.(pump := AfterFrame(Taken(st.pump.chunks)), permits := st.permits - |c|, queued := st.queued + c)
  }

  /** A round that found the queue closed. */
  function CutOff(st: EdgeStream, c: Bytes): EdgeStream
    requires |c| <= st.permits
  {
    st.(pump := Pump.Stopped, permits := st.permits - |c|)
  }

  /** One round, for a chunk the credit covers, and where it stops when the queue is closed. */
  lemma RoundIs(st: EdgeStream, payload: Bytes, k: nat)
    requires k < |Pieces(payload)| && |Flatten(Pieces(payload)[..k])| <= st.permits
    ensures
      var u, c := Uploaded(st, payload, k), Pieces(payload)[k];
      && u.pump == Sending(Pieces(payload)[k..]) && u.pump.chunks != [] && u.pump.chunks[0] == c
      && u.permits == st.permits - |Flatten(Pieces(payload)[..k])|
      && (|c| <= u.permits ==>
            && |Flatten(Pieces(payload)[..k + 1])| <= st.permits
            && AfterRound(u, c) == Uploaded(st, payload, k + 1)
            && CutOff(u, c) == Paid(st, payload, k).(pump := Pump.Stopped))
  {
    if |Pieces(payload)[k]| <= Uploaded(st, payload, k).permits {
      NextIs(st, payload, k);
    }
  }

  lemma PaidStep(e: Edge, q: seq<Frame>, id: nat, st: EdgeStream, payload: Bytes, k: nat)
    requires k < |Pieces(payload)| && |Flatten(Pieces(payload)[..k])| + |Pieces(payload)[k]| <= st.permits
    requires !SemaphoreShut(st)
    requires id in e.streams && e.streams[id] == Uploaded(st, payload, k)
    ensures Play(Fed, e, q, [Act(Do(id, Upload(TakeCredit)))]) ==
      (e.(streams := e.streams[id := Paid(st, payload, k)]), q)
  {
    LocalStep(e, q, id, Upload(TakeCredit), Paid(st, payload, k), []);
    One(Fed, e, q, Act(Do(id, Upload(TakeCredit))));
    assert q + [] == q;
  }

  lemma SentStep(e: Edge, q: seq<Frame>, id: nat, st: EdgeStream, payload: Bytes, k: nat)
    requires k < |Pieces(payload)| && |Flatten(Pieces(payload)[..k])| + |Pieces(payload)[k]| <= st.permits
    requires id in e.streams && e.streams[id] == Paid(st, payload, k)
    requires e.queueOpen
    ensures |Flatten(Pieces(payload)[..k + 1])| <= st.permits
    ensures Play(Fed, e, q, [Act(Do(id, Upload(SendData)))]) ==
      (e.(streams := e.streams[id := Uploaded(st, payload, k + 1)]), q + [Frame.Data(id, Pieces(payload)[k])])
  {
    var cs := Pieces(payload);
    NextIs(st, payload, k);
    LocalStep(e, q, id, Upload(SendData), Uploaded(st, payload, k + 1), [Frame.Data(id, cs[k])]);
    One(Fed, e, q, Act(Do(id, Upload(SendData))));
  }

  /** One round of the loop: credit, then the frame. */
  function RoundTrace(id: nat): seq<Input> {
    [Act(Do(id, Upload(TakeCredit)))] + [Act(Do(id, Upload(SendData)))]
  }

  lemma RoundSteps(e: Edge, q: seq<Frame>, id: nat, st: EdgeStream, payload: Bytes, k: nat)
    requires k < |Pieces(payload)| && |Flatten(Pieces(payload)[..k])| + |Pieces(payload)[k]| <= st.permits
    requires !SemaphoreShut(st) && e.queueOpen
    requires id in e.streams && e.streams[id] == Uploaded(st, payload, k)
    ensures |Flatten(Pieces(payload)[..k + 1])| <= st.permits
    ensures Play(Fed, e, q, RoundTrace(id)) ==
      (e.(streams := e.streams[id := Uploaded(st, payload, k + 1)]), q + [Frame.Data(id, Pieces(payload)[k])])
  {
    PaidStep(e, q, id, st, payload, k);
    var e1 := e.(streams := e.streams[id := Paid(st, payload, k)]);
    SentStep(e1, q, id, st, payload, k);
    Chain(Fed, e, q, [Act(Do(id, Upload(TakeCredit)))], [Act(Do(id, Upload(SendData)))], e1, q);
    PutTwice(e.streams, id, Paid(st, payload, k), Uploaded(st, payload, k + 1));
  }

  lemma StartSteps(e: Edge, q: seq<Frame>, id: nat, payload: Bytes)
    requires CanUpload(e, id, payload)
    ensures Play(Fed, e, q, UploadTrace(id, payload, 0)) ==
      (e.(streams := e.streams[id := Uploaded(e.streams[id], payload, 0)]), q + DataFrames(id, Pieces(payload)[..0]))
  {
    var st, cs := e.streams[id], Pieces(payload);
    StartIs(st, payload);
    LocalStep(e, q, id, Upload(ReadBody(payload)), Uploaded(st, payload, 0), []);
    One(Fed, e, q, Act(Do(id, Upload(ReadBody(payload)))));
    assert q + DataFrames(id, cs[..0]) == q + [];
  }

  /** The first `k` chunks go out, in order and each paid for. */
  lemma {:induction false} UploadSteps(e: Edge, q: seq<Frame>, id: nat, payload: Bytes, k: nat)
    requires CanUpload(e, id, payload) && e.queueOpen
    requires k <= |Pieces(payload)| && |Flatten(Pieces(payload)[..k])| <= e.streams[id].permits
    ensures Play(Fed, e, q, UploadTrace(id, payload, k)) ==
      (e.(streams := e.streams[id := Uploaded(e.streams[id], payload, k)]), q + DataFrames(id, Pieces(payload)[..k]))
  {
    if k == 0 {
      StartSteps(e, q, id, payload);
    } else {
      var st, cs := e.streams[id], Pieces(payload);
      FlattenNext(cs, k - 1);
      UploadSteps(e, q, id, payload, k - 1);
      var e1 := e.(streams := e.streams[id := Uploaded(st, payload, k - 1)]);
      var q1 := q + DataFrames(id, cs[..k - 1]);
      RoundSteps(e1, q1, id, st, payload, k - 1);
      Chain(Fed, e, q, UploadTrace(id, payload, k - 1), RoundTrace(id), e1, q1);
      PutTwice(e.streams, id, Uploaded(st, payload, k - 1), Uploaded(st, payload, k));
      FramesNext(q, id, cs, k - 1);
    }
  }

  /** The other ways a call can go: the stream is gone when it is looked up. */
  lemma GoneSteps(e: Edge, q: seq<Frame>, id: nat, payload: Bytes)
    requires id in e.streams && payload != []
    requires e.streams[id].announced && e.streams[id].pump.Idle? && !e.streams[id].inTable
    ensures Play(Fed, e, q, UploadTrace(id, payload, 0)) == (e.(streams := e.streams[id := TurnedAway(e.streams[id], payload)]), q)
  {
    LocalRun(e, q, id, Upload(ReadBody(payload)), TurnedAway(e.streams[id], payload), []);
    assert q + [] == q;
  }

  /** Or the credit covers the first chunk and the queue is closed. */
  lemma CutOffSteps(e: Edge, q: seq<Frame>, id: nat, payload: Bytes)
    requires CanUpload(e, id, payload) && !e.queueOpen && |Pieces(payload)[0]| <= e.streams[id].permits
    ensures Play(Fed, e, q, UploadTrace(id, payload, 0) + RoundTrace(id)) ==
      (e.(streams := e.streams[id := Paid(e.streams[id], payload, 0).(pump := Pump.Stopped)]), q)
  {
    var st := e.streams[id];
    StartSteps(e, q, id, payload);
    assert q + DataFrames(id, Pieces(payload)[..0]) == q;
    var e1 := e.(streams := e.streams[id := Uploaded(st, payload, 0)]);
    Chain(Fed, e, q, UploadTrace(id, payload, 0), RoundTrace(id), e1, q);
    PaidStep(e1, q, id, st, payload, 0);
    var e2 := e1.(streams := e1.streams[id := Paid(st, payload, 0)]);
    Chain(Fed, e1, q, [Act(Do(id, Upload(TakeCredit)))], [Act(Do(id, Upload(SendData)))], e2, q);
    LocalRun(e2, q, id, Upload(SendData), Paid(st, payload, 0).(pump := Pump.Stopped), []);
    assert q + [] == q;
    PutTwice(e.streams, id, Uploaded(st, payload, 0), Paid(st, payload, 0));
    PutTwice(e.streams, id, Paid(st, payload, 0), Paid(st, payload, 0).(pump := Pump.Stopped));
  }
}
