/** The concurrent-stream limit. The limit check, the insertion and the addition to the counter
    are separate atomics, and so are the removal and the subtraction, so the counter and the table
    only agree up to the tasks caught in between. */
module EdgeCounting {
  import opened Wrappers
  import opened Frames
  import opened Flow
  import opened Edge
  import opened EdgeRuns

  ghost function Chosen(m: map<nat, EdgeStream>, p: EdgeStream -> bool): set<nat> {
    set i | i in m && p(m[i])
  }

  ghost function Tally(m: map<nat, EdgeStream>, p: EdgeStream -> bool): nat {
    |Chosen(m, p)|
  }

  lemma TallyPut(m: map<nat, EdgeStream>, i: nat, st: EdgeStream, p: EdgeStream -> bool)
    ensures Tally(m[i := st], p) == Tally(m, p) - (if i in m && p(m[i]) then 1 else 0) + (if p(st) then 1 else 0)
  {
    assert Chosen(m[i := st], p) - {i} == Chosen(m, p) - {i};
    assert |Chosen(m, p) - {i}| == Tally(m, p) - (if i in m && p(m[i]) then 1 else 0);
    assert |Chosen(m[i := st], p) - {i}| == Tally(m[i := st], p) - (if p(st) then 1 else 0);
  }

  lemma TallyAll(m: map<nat, EdgeStream>, p: EdgeStream -> bool)
    ensures Tally(m, p) <= |m|
  {
    SubsetSize(Chosen(m, p), m.Keys);
    assert |m.Keys| == |m|;
  }

  lemma {:induction false} SubsetSize(a: set<nat>, b: set<nat>)
    requires a <= b
    ensures |a| <= |b|
  {
    if a != {} {
      var x :| x in a;
      SubsetSize(a - {x}, b - {x});
    }
  }

  predicate Listed(st: EdgeStream) { st.inTable }

  /** Removed, not yet subtracted. */
  predicate BeingClosed(st: EdgeStream) { st.closer.Removed? || st.closer.SemaphoreClosed? }

  /** Inserted, not yet added. */
  predicate Uncounted(st: EdgeStream) { st.handler.Inserted? }

  predicate Unplaced(st: EdgeStream) { st.handler.Allocated? }

  /** What the counter would be on unbounded integers. */
  ghost function Counter(e: Edge): int {
    Tally(e.streams, Listed) + Tally(e.streams, BeingClosed) - Tally(e.streams, Uncounted)
  }

  /** Tasks past the limit check that have not been added to the counter. */
  ghost function Pending(e: Edge): nat {
    e.admitted + Tally(e.streams, Unplaced) + Tally(e.streams, Uncounted)
  }

  ghost predicate CountingInv(e: Edge) {
    && EdgeInv(e)
    && e.openStreams == Counter(e) % U64
    && |e.streams| == e.nextStreamId - 1
  }

  /** The bound that every step keeps when at most `peak` tasks are ever pending together. */
  ghost predicate Bounded(e: Edge, peak: nat) {
    && Pending(e) <= peak
    && (e.limit > 0 ==> Counter(e) + Pending(e) <= e.limit - 1 + peak)
  }

  function Weight(st: EdgeStream): int {
    (if Listed(st) then 1 else 0) + (if BeingClosed(st) then 1 else 0) - (if Uncounted(st) then 1 else 0)
  }

  function Wait(st: EdgeStream): int {
    (if Unplaced(st) then 1 else 0) + (if Uncounted(st) then 1 else 0)
  }

  lemma PutCounter(e: Edge, i: nat, st: EdgeStream)
    requires i in e.streams
    ensures Counter(Put(e, i, st)) == Counter(e) - Weight(e.streams[i]) + Weight(st)
  {
    TallyPut(e.streams, i, st, Listed);
    TallyPut(e.streams, i, st, BeingClosed);
    TallyPut(e.streams, i, st, Uncounted);
  }

  lemma PutPending(e: Edge, i: nat, st: EdgeStream)
    requires i in e.streams
    ensures Pending(Put(e, i, st)) == Pending(e) - Wait(e.streams[i]) + Wait(st)
  {
    TallyPut(e.streams, i, st, Uncounted);
    TallyPut(e.streams, i, st, Unplaced);
  }

  lemma PutTallies(e: Edge, i: nat, st: EdgeStream)
    requires i in e.streams
    ensures Counter(Put(e, i, st)) == Counter(e) - Weight(e.streams[i]) + Weight(st)
    ensures Pending(Put(e, i, st)) == Pending(e) - Wait(e.streams[i]) + Wait(st)
    ensures |Put(e, i, st).streams| == |e.streams|
    ensures |Table(Put(e, i, st))| == |Table(e)| - (if e.streams[i].inTable then 1 else 0) + (if st.inTable then 1 else 0)
  {
    PutCounter(e, i, st);
    PutPending(e, i, st);
    TallyPut(e.streams, i, st, Listed);
    TableIsListed(e);
    TableIsListed(Put(e, i, st));
    assert Put(e, i, st).streams.Keys == e.streams.Keys;
  }

  lemma TableIsListed(e: Edge)
    ensures |Table(e)| == Tally(e.streams, Listed)
  {
    assert Table(e) == Chosen(e.streams, Listed);
  }

  lemma HandlerWeights(i: nat, window: nat, queueOpen: bool, st: EdgeStream, h: HandlerStep)
    requires LifeOk(window, st) && HandlerMove(i, window, queueOpen, st, h).Some?
    ensures
      var m := HandlerMove(i, window, queueOpen, st, h).value.st;
      Weight(m) == Weight(st) && Wait(m) == Wait(st)
  {
  }

  lemma UploadWeights(i: nat, window: nat, queueOpen: bool, st: EdgeStream, u: UploadStep)
    requires LifeOk(window, st) && UploadMove(i, queueOpen, st, u).Some?
    ensures
      var m := UploadMove(i, queueOpen, st, u).value.st;
      Weight(m) == Weight(st) && Wait(m) == Wait(st)
  {
  }

  lemma LocalWeights(i: nat, window: nat, queueOpen: bool, st: EdgeStream, a: EdgeLocal)
    requires LifeOk(window, st) && LocalMove(i, window, queueOpen, st, a).Some?
    ensures
      var m := LocalMove(i, window, queueOpen, st, a).value.st;
      Weight(m) == Weight(st) && Wait(m) == Wait(st)
  {
    match a
    case Handle(h) => HandlerWeights(i, window, queueOpen, st, h);
    case Upload(u) => UploadWeights(i, window, queueOpen, st, u);
  }

  lemma LoopWeights(window: nat, queueOpen: bool, st: EdgeStream, loop: EdgeLoop, a: EdgeAction)
    requires LifeOk(window, st) && LoopMove(queueOpen, st, loop, a).Some?
    ensures
      var m := LoopMove(queueOpen, st, loop, a).value.st;
      Weight(m) == Weight(st) && Wait(m) == Wait(st)
  {
  }

  lemma WrapUp(c: int, counter: nat)
    requires counter == c % U64
    ensures (counter + 1) % U64 == (c + 1) % U64
    ensures (counter + U64 - 1) % U64 == (c - 1) % U64
  {
  }

  // ---- each step -----------------------------------------------------------------------------

  predicate Admits(e: Edge, input: Input) {
    input == Act(Admit) && (e.limit > 0 ==> e.openStreams < e.limit)
  }

  predicate Counts(e: Edge, input: Input) {
    input.Act? && input.a.Count? && input.a.id in e.streams && e.streams[input.a.id].handler.Inserted?
  }

  predicate Subtracts(e: Edge, input: Input) {
    input.Act? && input.a.CountDown? && CountsDown(e, input, input.a.id)
  }

  ghost predicate Numbers(e: Edge) {
    e.openStreams == Counter(e) % U64 && |e.streams| == e.nextStreamId - 1
  }

  /** The counter moved by `up` and the number of pending tasks by `wait`. */
  ghost predicate Moved(e: Edge, e': Edge, up: int, wait: int) {
    && Numbers(e')
    && Counter(e') == Counter(e) + up
    && Pending(e') == Pending(e) + wait
    && e'.limit == e.limit
    && e'.nextStreamId >= e.nextStreamId
  }

  lemma PutMoved(e: Edge, i: nat, st: EdgeStream, loop: EdgeLoop)
    requires Numbers(e) && i in e.streams
    requires Weight(st) == Weight(e.streams[i]) && Wait(st) == Wait(e.streams[i])
    ensures Moved(e, Put(e, i, st).(loop := loop), 0, 0)
  {
    PutTallies(e, i, st);
  }

  lemma DoCounts(e: Edge, i: nat, step: EdgeLocal)
    requires CountingInv(e) && Numbers(e)
    ensures Moved(e, Step(e, Do(i, step)).0, 0, 0)
  {
    if i in e.streams {
      var r := LocalMove(i, e.window, e.queueOpen, e.streams[i], step);
      if r.Some? {
        LocalWeights(i, e.window, e.queueOpen, e.streams[i], step);
        PutMoved(e, i, r.value.st, e.loop);
        assert Put(e, i, r.value.st) == Put(e, i, r.value.st).(loop := e.loop);
      }
    }
  }

  lemma LoopStepCounts(e: Edge, a: EdgeAction)
    requires CountingInv(e) && Numbers(e)
    ensures Moved(e, LoopStep(e, a).0, 0, 0)
  {
    if HasId(e.loop) {
      var i := e.loop.id;
      var r := LoopMove(e.queueOpen, At(e, i), e.loop, a);
      if r.Some? && i in e.streams {
        LoopWeights(e.window, e.queueOpen, e.streams[i], e.loop, a);
        PutMoved(e, i, r.value.st, r.value.loop);
      }
    }
  }

  lemma TeardownCounts(e: Edge, i: nat)
    requires CountingInv(e) && Numbers(e)
    ensures Moved(e, Step(e, TeardownClose(i)).0, 0, 0)
  {
    if e.loop.Teardown? && i in e.loop.ids && i in e.streams {
      PutMoved(e, i, Close(e.streams[i]), TeardownOf(e.loop.ids - {i}));
    }
  }

  lemma AcceptCounts(e: Edge, f: ClientFrame)
    requires CountingInv(e) && Numbers(e) && e.loop.Ready?
    ensures Moved(e, Accept(e, f), 0, 0)
  {
    if f.id in e.streams {
      var (st, loop) := Receive(e.streams[f.id], f);
      PutMoved(e, f.id, st, loop);
    }
  }

  /** One stream written back and the counter moved along with its weight. */
  lemma CounterMoved(e: Edge, i: nat, st: EdgeStream, counter: nat)
    requires Numbers(e) && i in e.streams
    requires counter == (Counter(e) + Weight(st) - Weight(e.streams[i])) % U64
    ensures Moved(e, Put(e, i, st).(openStreams := counter), Weight(st) - Weight(e.streams[i]), Wait(st) - Wait(e.streams[i]))
  {
    PutTallies(e, i, st);
  }

  lemma CountWeights(e: Edge, i: nat)
    requires Numbers(e) && Counts(e, Act(Count(i)))
    ensures Moved(e, Step(e, Count(i)).0, 1, -1)
  {
    var st := e.streams[i].(handler := Counted);
    assert Weight(st) - Weight(e.streams[i]) == 1 && Wait(st) - Wait(e.streams[i]) == -1;
    WrapUp(Counter(e), e.openStreams);
    CounterMoved(e, i, st, (e.openStreams + 1) % U64);
  }

  lemma CountDownWeights(e: Edge, i: nat)
    requires Numbers(e) && Subtracts(e, Act(CountDown(i)))
    ensures Moved(e, Step(e, CountDown(i)).0, -1, 0)
  {
    var st := e.streams[i].(closer := Finished);
    assert Weight(st) - Weight(e.streams[i]) == -1 && Wait(st) - Wait(e.streams[i]) == 0;
    WrapUp(Counter(e), e.openStreams);
    CounterMoved(e, i, st, (e.openStreams + U64 - 1) % U64);
  }

  lemma AllocateCounts(e: Edge)
    requires CountingInv(e) && Numbers(e)
    ensures Moved(e, Step(e, Allocate).0, 0, 0)
  {
    if e.admitted > 0 {
      var st := Fresh(e.window);
      var e' := Step(e, Allocate).0;
      TallyPut(e.streams, e.nextStreamId, st, Listed);
      TallyPut(e.streams, e.nextStreamId, st, BeingClosed);
      TallyPut(e.streams, e.nextStreamId, st, Uncounted);
      TallyPut(e.streams, e.nextStreamId, st, Unplaced);
      assert Counter(e') == Counter(e) && Pending(e') == Pending(e);
      GrowsByOne(e.streams, e.nextStreamId, st);
    }
  }

  lemma GrowsByOne(m: map<nat, EdgeStream>, i: nat, st: EdgeStream)
    requires i !in m
    ensures |m[i := st]| == |m| + 1
  {
    assert m[i := st].Keys == m.Keys + {i};
    assert |m[i := st].Keys| == |m[i := st]| && |m.Keys| == |m|;
  }

  /** Neither the limit check, nor a hang-up, nor a disconnect touches a stream. */
  lemma QuietCounts(e: Edge, a: EdgeAction)
    requires Numbers(e) && (a.Admit? || a.HangUp? || a.Disconnect?)
    ensures Moved(e, Step(e, a).0, 0, if Admits(e, Act(a)) then 1 else 0)
  {
  }

  lemma CounterCounts(e: Edge, a: EdgeAction)
    requires CountingInv(e) && Numbers(e) && (a.Count? || a.CountDown?)
    ensures Moved(e, Step(e, a).0,
                  (if Counts(e, Act(a)) then 1 else 0) - (if Subtracts(e, Act(a)) then 1 else 0),
                  -(if Counts(e, Act(a)) then 1 else 0))
  {
    if Counts(e, Act(a)) {
      CountWeights(e, a.id);
    } else if Subtracts(e, Act(a)) {
      CountDownWeights(e, a.id);
    }
  }

  lemma ActCounts(e: Edge, a: EdgeAction)
    requires CountingInv(e) && Numbers(e)
    ensures Moved(e, Step(e, a).0,
                  (if Counts(e, Act(a)) then 1 else 0) - (if Subtracts(e, Act(a)) then 1 else 0),
                  (if Admits(e, Act(a)) then 1 else 0) - (if Counts(e, Act(a)) then 1 else 0))
  {
    if a.Count? || a.CountDown? {
      CounterCounts(e, a);
    } else if a.Admit? || a.HangUp? || a.Disconnect? {
      QuietCounts(e, a);
    } else {
      match a
      case Do(i, step) => DoCounts(e, i, step);
      case TeardownClose(i) => TeardownCounts(e, i);
      case Allocate => AllocateCounts(e);
      case _ => LoopStepCounts(e, a);
    }
  }

  /** The only steps that move the counter are the addition and the subtraction, and the only
      steps that change the number of pending tasks are the limit check and the addition. */
  lemma FeedCounts(e: Edge, input: Input)
    requires CountingInv(e)
    ensures CountingInv(Feed(e, input))
    ensures Moved(e, Feed(e, input),
                  (if Counts(e, input) then 1 else 0) - (if Subtracts(e, input) then 1 else 0),
                  (if Admits(e, input) then 1 else 0) - (if Counts(e, input) then 1 else 0))
  {
    FeedKeeps(e, input);
    match input
    case Act(a) => ActCounts(e, a);
    case Arrives(f) =>
      if e.loop.Ready? {
        AcceptCounts(e, f);
      }
  }

  // ---- runs ----------------------------------------------------------------------------------

  /** The largest number of tasks that were pending together at any moment of a run. */
  ghost function Peak(e: Edge, inputs: seq<Input>): nat
    decreases |inputs|
  {
    if inputs == [] then Pending(e)
    else
      var later := Peak(Feed(e, inputs[0]), inputs[1..]);
      if Pending(e) > later then Pending(e) else later
  }

  const MANY: nat := 0x8000_0000_0000_0000

  lemma FeedBounded(e: Edge, input: Input, peak: nat)
    requires CountingInv(e) && Bounded(e, peak) && e.limit <= U32_MAX && e.nextStreamId <= MANY
    requires Pending(Feed(e, input)) <= peak
    ensures Bounded(Feed(e, input), peak)
  {
    FeedCounts(e, input);
    CheckIsExact(e);
  }

  lemma {:induction false} RunCounts(e: Edge, inputs: seq<Input>, peak: nat)
    requires CountingInv(e) && Bounded(e, peak) && e.limit <= U32_MAX
    requires Peak(e, inputs) <= peak
    ensures Run(e, inputs).nextStreamId <= MANY ==> Bounded(Run(e, inputs), peak)
    decreases |inputs|
  {
    if inputs != [] {
      var e' := Feed(e, inputs[0]);
      FeedCounts(e, inputs[0]);
      RunGrows(e', inputs[1..]);
      PeakIncludesNow(e', inputs[1..]);
      if e'.nextStreamId <= MANY {
        FeedBounded(e, inputs[0], peak);
        RunCounts(e', inputs[1..], peak);
      }
    }
  }

  lemma PeakIncludesNow(e: Edge, inputs: seq<Input>)
    ensures Pending(e) <= Peak(e, inputs)
  {
  }

  /** With fewer than 2^63 streams ever opened, the wrapped counter passes the check exactly when
      the integer it stands for does. */
  lemma CheckIsExact(e: Edge)
    requires CountingInv(e) && e.limit <= U32_MAX && e.nextStreamId <= MANY
    ensures e.openStreams < e.limit <==> 0 <= Counter(e) < e.limit
  {
    TallyAll(e.streams, Listed);
    TallyAll(e.streams, Uncounted);
    ClosedOrListed(e);
  }

  lemma ClosedOrListed(e: Edge)
    requires CountingInv(e)
    ensures Tally(e.streams, Listed) + Tally(e.streams, BeingClosed) <= |e.streams|
  {
    var listed := Chosen(e.streams, Listed);
    var closing := Chosen(e.streams, BeingClosed);
    assert listed * closing == {};
    assert |listed + closing| == |listed| + |closing|;
    SubsetSize(listed + closing, e.streams.Keys);
    assert |e.streams.Keys| == |e.streams|;
  }

  lemma {:induction false} RunGrows(e: Edge, inputs: seq<Input>)
    requires CountingInv(e)
    ensures CountingInv(Run(e, inputs)) && Run(e, inputs).nextStreamId >= e.nextStreamId && Run(e, inputs).limit == e.limit
    decreases |inputs|
  {
    if inputs != [] {
      FeedCounts(e, inputs[0]);
      RunGrows(Feed(e, inputs[0]), inputs[1..]);
    }
  }

  lemma InitCounts(limit: nat, window: nat)
    ensures CountingInv(Init(limit, window)) && Counter(Init(limit, window)) == 0 && Pending(Init(limit, window)) == 0
  {
    InitOk(limit, window);
  }

  /** In every run: table = counter + inserted but not added - removed but not subtracted, the
      counter being what the u64 holds modulo 2^64. */
  lemma CounterTracksTable(limit: nat, window: nat, inputs: seq<Input>)
    ensures
      var e := Run(Init(limit, window), inputs);
      && |Table(e)| == Counter(e) + Tally(e.streams, Uncounted) - Tally(e.streams, BeingClosed)
      && e.openStreams == Counter(e) % 0x1_0000_0000_0000_0000
  {
    InitCounts(limit, window);
    RunGrows(Init(limit, window), inputs);
    TableIsListed(Run(Init(limit, window), inputs));
  }

  /** The table exceeds the limit by no more than the number of tasks that were pending together,
      less one; openers that come one at a time never exceed it. */
  lemma TableBound(limit: nat, window: nat, inputs: seq<Input>)
    requires 0 < limit <= 0xFFFF_FFFF
    ensures
      var e := Run(Init(limit, window), inputs);
      e.nextStreamId <= MANY ==> |Table(e)| <= limit - 1 + Peak(Init(limit, window), inputs)
  {
    var e0 := Init(limit, window);
    var e := Run(e0, inputs);
    InitCounts(limit, window);
    PeakIncludesNow(e0, inputs);
    RunCounts(e0, inputs, Peak(e0, inputs));
    RunGrows(e0, inputs);
    TableIsListed(e);
  }

  // ---- the bound is reached --------------------------------------------------------------------

  lemma {:induction false} PeakSplit(e: Edge, a: seq<Input>, b: seq<Input>, peak: nat)
    ensures Peak(e, a + b) <= peak <==> Peak(e, a) <= peak && Peak(Run(e, a), b) <= peak
    decreases |a|
  {
    if a == [] {
      assert a + b == b;
      PeakIncludesNow(e, b);
    } else {
      assert (a + b)[1..] == a[1..] + b;
      PeakSplit(Feed(e, a[0]), a[1..], b, peak);
    }
  }

  lemma RunOne(e: Edge, input: Input)
    ensures Run(e, [input]) == Feed(e, input)
    ensures Peak(e, [input]) == Pending(e) || Peak(e, [input]) == Pending(Feed(e, input))
  {
    assert [input][1..] == [];
    assert Run(Feed(e, input), []) == Feed(e, input);
    assert Peak(Feed(e, input), []) == Pending(Feed(e, input));
  }

  lemma {:induction false} PeakIncludesLast(e: Edge, inputs: seq<Input>)
    ensures Pending(Run(e, inputs)) <= Peak(e, inputs)
    decreases |inputs|
  {
    if inputs != [] {
      PeakIncludesLast(Feed(e, inputs[0]), inputs[1..]);
    }
  }

  /** A state in which the numbers are these; what the streams are does not matter. */
  ghost predicate Stands(e: Edge, limit: nat, openStreams: nat, admitted: nat, table: nat, pending: nat) {
    && CountingInv(e) && e.limit == limit && e.openStreams == openStreams && e.admitted == admitted
    && |Table(e)| == table && Pending(e) == pending
  }

  lemma FeedAdmit(e: Edge)
    requires CountingInv(e) && e.openStreams < e.limit
    ensures Stands(Feed(e, Act(Admit)), e.limit, e.openStreams, e.admitted + 1, |Table(e)|, Pending(e) + 1)
    ensures Feed(e, Act(Admit)).nextStreamId == e.nextStreamId
  {
    FeedCounts(e, Act(Admit));
    assert Table(Feed(e, Act(Admit))) == Table(e);
  }

  lemma FeedAllocate(e: Edge)
    requires CountingInv(e) && e.admitted > 0
    ensures Stands(Feed(e, Act(Allocate)), e.limit, e.openStreams, e.admitted - 1, |Table(e)|, Pending(e))
    ensures e.nextStreamId in Feed(e, Act(Allocate)).streams
    ensures Feed(e, Act(Allocate)).streams[e.nextStreamId].handler.Allocated?
  {
    FeedCounts(e, Act(Allocate));
    FreshIsUnlisted(e, Feed(e, Act(Allocate)));
  }

  lemma FreshIsUnlisted(e: Edge, e': Edge)
    requires e.nextStreamId !in e.streams
    requires e'.streams == e.streams[e.nextStreamId := Fresh(e.window)]
    ensures Table(e') == Table(e)
  {
  }

  lemma InsertIs(e: Edge, n: nat)
    requires n in e.streams && e.streams[n].handler.Allocated?
    ensures Feed(e, Act(Do(n, Handle(Insert)))) == Put(e, n, e.streams[n].(handler := Inserted, inTable := true))
  {
  }

  lemma InsertMoves(e: Edge, n: nat)
    requires CountingInv(e) && n in e.streams && e.streams[n].handler.Allocated?
    ensures |Table(Put(e, n, e.streams[n].(handler := Inserted, inTable := true)))| == |Table(e)| + 1
  {
    var st := e.streams[n].(handler := Inserted, inTable := true);
    assert LifeOk(e.window, e.streams[n]);
    assert Table(Put(e, n, st)) == Table(e) + {n};
  }

  lemma FeedInsert(e: Edge, n: nat)
    requires CountingInv(e) && n in e.streams && e.streams[n].handler.Allocated?
    ensures Stands(Feed(e, Act(Do(n, Handle(Insert)))), e.limit, e.openStreams, e.admitted, |Table(e)| + 1, Pending(e))
    ensures Counts(Feed(e, Act(Do(n, Handle(Insert)))), Act(Count(n)))
  {
    FeedCounts(e, Act(Do(n, Handle(Insert))));
    InsertIs(e, n);
    InsertMoves(e, n);
  }

  /** The addition to the counter, as the new state. */
  function AfterCount(e: Edge, n: nat): Edge
    requires n in e.streams
  {
    Put(e, n, e.streams[n].(handler := Counted)).(openStreams := (e.openStreams + 1) % U64)
  }

  lemma CountIs(e: Edge, n: nat)
    requires Counts(e, Act(Count(n)))
    ensures Feed(e, Act(Count(n))) == AfterCount(e, n)
  {
  }

  lemma CountTallies(e: Edge, n: nat)
    requires Counts(e, Act(Count(n))) && Pending(e) > 0
    ensures |Table(AfterCount(e, n))| == |Table(e)| && Pending(AfterCount(e, n)) == Pending(e) - 1
  {
    var put := Put(e, n, e.streams[n].(handler := Counted));
    PutTallies(e, n, e.streams[n].(handler := Counted));
    assert Table(AfterCount(e, n)) == Table(put);
  }

  lemma FeedCount(e: Edge, n: nat)
    requires CountingInv(e) && Counts(e, Act(Count(n))) && Pending(e) > 0
    ensures Stands(Feed(e, Act(Count(n))), e.limit, (e.openStreams + 1) % U64, e.admitted, |Table(e)|, Pending(e) - 1)
  {
    FeedCounts(e, Act(Count(n)));
    CountIs(e, n);
    CountTallies(e, n);
  }

  function PlaceNext(n: nat): seq<Input> {
    [Act(Allocate)] + [Act(Do(n, Handle(Insert)))]
  }

  lemma RunPlaceNext(e: Edge)
    requires CountingInv(e) && e.admitted > 0
    ensures
      var n := e.nextStreamId;
      var e' := Run(e, PlaceNext(n));
      && Stands(e', e.limit, e.openStreams, e.admitted - 1, |Table(e)| + 1, Pending(e))
      && Counts(e', Act(Count(n)))
      && Peak(e, PlaceNext(n)) <= Pending(e)
  {
    var n := e.nextStreamId;
    var e1 := Feed(e, Act(Allocate));
    FeedAllocate(e);
    FeedInsert(e1, n);
    RunOne(e, Act(Allocate));
    RunOne(e1, Act(Do(n, Handle(Insert))));
    RunSplit(e, [Act(Allocate)], [Act(Do(n, Handle(Insert)))]);
    PeakSplit(e, [Act(Allocate)], [Act(Do(n, Handle(Insert)))], Pending(e));
  }

  lemma Then(e: Edge, a: seq<Input>, e1: Edge, b: seq<Input>, peak: nat)
    requires Run(e, a) == e1 && Peak(e, a) <= peak && Peak(e1, b) <= peak
    ensures Run(e, a + b) == Run(e1, b) && Peak(e, a + b) <= peak
  {
    RunSplit(e, a, b);
    PeakSplit(e, a, b, peak);
  }

  lemma AdmitOne(e: Edge) returns (e1: Edge)
    requires CountingInv(e) && Pending(e) == 0 && e.openStreams < e.limit
    ensures Stands(e1, e.limit, e.openStreams, 1, |Table(e)|, 1)
    ensures Run(e, [Act(Admit)]) == e1 && Peak(e, [Act(Admit)]) <= 1
  {
    NothingAdmitted(e);
    FeedAdmit(e);
    RunOne(e, Act(Admit));
    e1 := Feed(e, Act(Admit));
  }

  lemma SmallStays(n: nat)
    requires n < U32_MAX
    ensures (n + 1) % U64 == n + 1
  {
  }

  lemma StandsNext(e: Edge, limit: nat, openStreams: nat, admitted: nat, table: nat, pending: nat, n: nat)
    requires Stands(e, limit, openStreams, admitted, table, pending) && Counts(e, Act(Count(n))) && pending > 0
    ensures Stands(Feed(e, Act(Count(n))), limit, (openStreams + 1) % U64, admitted, table, pending - 1)
  {
    FeedCount(e, n);
  }

  /** A run that leaves one stream to be counted, and its count. */
  lemma CountAfter(e: Edge, a: seq<Input>, e2: Edge, input: Input)
    requires Run(e, a) == e2 && Peak(e, a) <= 1 && Pending(e2) <= 1 && Pending(Feed(e2, input)) <= 1
    ensures Run(e, a + [input]) == Feed(e2, input) && Peak(e, a + [input]) <= 1
  {
    RunOne(e2, input);
    Then(e, a, e2, [input], 1);
  }

  lemma PlaceStands(e: Edge, limit: nat, openStreams: nat, table: nat) returns (inputs: seq<Input>)
    requires Stands(e, limit, openStreams, 1, table, 1)
    ensures Stands(Run(e, inputs), limit, (openStreams + 1) % U64, 0, table + 1, 0)
    ensures Peak(e, inputs) <= 1
  {
    var n := e.nextStreamId;
    RunPlaceNext(e);
    var e2 := Run(e, PlaceNext(n));
    StandsNext(e2, limit, openStreams, 0, table + 1, 1, n);
    CountAfter(e, PlaceNext(n), e2, Act(Count(n)));
    inputs := PlaceNext(n) + [Act(Count(n))];
  }

  /** One stream from the limit check to the counter. */
  lemma OpenNext(e: Edge) returns (inputs: seq<Input>)
    requires CountingInv(e) && Pending(e) == 0 && e.openStreams < e.limit <= U32_MAX
    ensures Stands(Run(e, inputs), e.limit, e.openStreams + 1, 0, |Table(e)| + 1, 0)
    ensures Peak(e, inputs) <= 1
  {
    var e1 := AdmitOne(e);
    SmallStays(e.openStreams);
    inputs := PlaceAdmitted(e, e1, e.limit, e.openStreams, e.openStreams + 1, |Table(e)|);
  }

  lemma PlaceAdmitted(e: Edge, e1: Edge, limit: nat, openStreams: nat, next: nat, table: nat) returns (inputs: seq<Input>)
    requires next == (openStreams + 1) % U64
    requires Run(e, [Act(Admit)]) == e1 && Peak(e, [Act(Admit)]) <= 1
    requires Stands(e1, limit, openStreams, 1, table, 1)
    ensures Stands(Run(e, inputs), limit, next, 0, table + 1, 0)
    ensures Peak(e, inputs) <= 1
  {
    var rest := PlaceStands(e1, limit, openStreams, table);
    Then(e, [Act(Admit)], e1, rest, 1);
    inputs := [Act(Admit)] + rest;
  }

  /** Opening streams one at a time fills the table up to the limit, with one task pending at a time. */
  lemma {:induction false} SerialOpens(e: Edge, n: nat) returns (inputs: seq<Input>)
    requires CountingInv(e) && Pending(e) == 0 && e.openStreams + n <= e.limit <= U32_MAX
    ensures
      var e' := Run(e, inputs);
      && CountingInv(e') && Pending(e') == 0
      && e'.openStreams == e.openStreams + n && e'.limit == e.limit
      && |Table(e')| == |Table(e)| + n
      && Peak(e, inputs) <= 1
    decreases n
  {
    if n == 0 {
      inputs := [];
    } else {
      var here := OpenNext(e);
      var rest := SerialOpens(Run(e, here), n - 1);
      inputs := here + rest;
      RunSplit(e, here, rest);
      PeakSplit(e, here, rest, 1);
    }
  }

  /** `k` tasks pass the check together. */
  lemma {:induction false} AdmitTogether(e: Edge, k: nat) returns (inputs: seq<Input>)
    requires CountingInv(e) && e.openStreams < e.limit
    ensures
      && Run(e, inputs) == e.(admitted := e.admitted + k)
      && CountingInv(Run(e, inputs))
      && Pending(Run(e, inputs)) == Pending(e) + k
      && Peak(e, inputs) <= Pending(e) + k
    decreases k
  {
    if k == 0 {
      inputs := [];
    } else {
      FeedAdmit(e);
      RunOne(e, Act(Admit));
      var e1 := Feed(e, Act(Admit));
      var rest := AdmitTogether(e1, k - 1);
      inputs := [Act(Admit)] + rest;
      RunSplit(e, [Act(Admit)], rest);
      PeakSplit(e, [Act(Admit)], rest, Pending(e) + k);
    }
  }

  /** All admitted tasks insert their streams before any of them counts. */
  lemma {:induction false} PlaceAll(e: Edge) returns (inputs: seq<Input>)
    requires CountingInv(e)
    ensures
      var e' := Run(e, inputs);
      && CountingInv(e')
      && |Table(e')| == |Table(e)| + e.admitted
      && Pending(e') == Pending(e)
      && Peak(e, inputs) <= Pending(e)
    decreases e.admitted
  {
    if e.admitted == 0 {
      inputs := [];
    } else {
      var here := PlaceNext(e.nextStreamId);
      RunPlaceNext(e);
      var rest := PlaceAll(Run(e, here));
      inputs := here + rest;
      RunSplit(e, here, rest);
      PeakSplit(e, here, rest, Pending(e));
    }
  }

  /** One stream short of the limit, `k` tasks pass the check together. */
  lemma OpenTogether(e: Edge, k: nat) returns (inputs: seq<Input>)
    requires CountingInv(e) && Pending(e) == 0 && e.openStreams < e.limit
    ensures |Table(Run(e, inputs))| == |Table(e)| + k && Pending(Run(e, inputs)) == k && Peak(e, inputs) <= k
  {
    NothingAdmitted(e);
    var b := AdmitTogether(e, k);
    var e2 := Run(e, b);
    assert Table(e2) == Table(e);
    var c := PlaceAll(e2);
    Then(e, b, e2, c, k);
    inputs := b + c;
  }

  /** The limit is not a ceiling: for every limit and every k, some run with at most k tasks
      pending together ends with limit + k - 1 streams in the table. */
  lemma BoundIsReached(limit: nat, window: nat, k: nat)
    requires 0 < limit <= 0xFFFF_FFFF && 0 < k
    ensures exists inputs ::
      Peak(Init(limit, window), inputs) == k && |Table(Run(Init(limit, window), inputs))| == limit - 1 + k
  {
    var e0 := Init(limit, window);
    InitCounts(limit, window);
    assert Table(e0) == {};
    var a := SerialOpens(e0, limit - 1);
    var e1 := Run(e0, a);
    var b := OpenTogether(e1, k);
    Then(e0, a, e1, b, k);
    PeakIncludesLast(e0, a + b);
    assert Peak(e0, a + b) == k;
  }

  lemma NothingAdmitted(e: Edge)
    requires Pending(e) == 0
    ensures e.admitted == 0
  {
  }
}
