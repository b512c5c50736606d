/** The steps of `Agent` that one whole call of a method of the agent's session performs when no
    other task comes in between, and what they amount to. */
module AgentSteps {
  import opened Wrappers
  import opened Frames
  import opened Runs
  import opened Flow
  import opened Agent

  datatype AgentInput = Acts(a: AgentAction) | Reads(f: Frame)

  /** What the agent does with an input; it takes no frame while it is busy with one. */
  function Fed(g: Agent, input: AgentInput): (Agent, seq<Frame>) {
    match input
    case Acts(a) => Step(g, a)
    case Reads(f) => if g.loop.Ready? then (Accept(g, f), []) else (g, [])
  }

  lemma LocalStep(g: Agent, q: seq<Frame>, id: nat, a: AgentLocal, st: AgentStream, out: seq<Frame>)
    requires id in g.streams && LocalMove(id, g.queueOpen, g.streams[id], a) == Some(AgentMove(st, out))
    ensures Play(Fed, g, q, [Acts(Do(id, a))]) == (g.(streams := g.streams[id := st]), q + out)
  {
    One(Fed, g, q, Acts(Do(id, a)));
  }

  // ---- frames from the edge -------------------------------------------------------------------

  /** The channel has room, or nobody holds its other end: `tx.send` does not wait. */
  predicate HasRoom(st: AgentStream) {
    !st.bodyOpen || !st.rxAlive || |st.channel| < BODY_QUEUE
  }

  function Dropped(g: Agent, id: nat): Agent {
    if id in g.streams then g.(streams := g.streams[id := g.streams[id].(inTable := false)]) else g
  }

  function Buffered(st: AgentStream, payload: Bytes): AgentStream {
    st.(channel := st.channel + [payload], received := st.received + [payload])
  }

  /** The agent after a frame: Open registers the stream; Data is buffered and its credit returned,
      waits for room, or drops a stream that takes no more of it; End swaps the sender; Reset drops
      the stream; a WindowUpdate adds credit. Frames for streams it has dropped are ignored. */
  function Handled(g: Agent, f: Frame): (Agent, seq<Frame>) {
    if f.Open? then (Put(g, f.id, Register(f.window)), [])
    else if !(f.id in g.streams && g.streams[f.id].inTable) then (g, [])
    else
      var st := g.streams[f.id];
      match f
      case Data(id, p) =>
        if !HasRoom(st) then (g.(loop := Delivering(id, p)), [])
        else if st.bodyOpen && st.rxAlive then
          (Put(g, id, Buffered(st, p)), if g.queueOpen then [Frame.WindowUpdate(id, ToU32(|p|))] else [])
        else (Dropped(g, id), [])
      case End(id) => (Put(g, id, st.(bodyOpen := false)), [])
      case Reset(id) => (Dropped(g, id), [])
      case WindowUpdate(id, n) => (Put(g, id, st.(permits := st.permits + n)), [])
      case ResponseHead(_) => (g, [])
      case Open(_, _) => (g, [])
  }

  function HandledTrace(g: Agent, f: Frame): seq<AgentInput> {
    [Reads(f)] +
    if f.Data? && f.id in g.streams && g.streams[f.id].inTable && HasRoom(g.streams[f.id]) then
      var st := g.streams[f.id];
      if !st.bodyOpen then [Acts(LoopDrop)]
      else if st.rxAlive then [Acts(LoopDeliver)] + [Acts(LoopCredit)]
      else [Acts(LoopDeliver)] + [Acts(LoopDrop)]
    else []
  }

  /** Frames other than Data are done with in one step. */
  lemma HandledAtOnce(g: Agent, q: seq<Frame>, f: Frame)
    requires g.loop.Ready?
    requires f.Data? ==> !(f.id in g.streams && g.streams[f.id].inTable)
    ensures Play(Fed, g, q, [Reads(f)]) == (Handled(g, f).0, q + Handled(g, f).1)
  {
    One(Fed, g, q, Reads(f));
    if f.id in g.streams {
      assert g.streams[f.id := g.streams[f.id]] == g.streams;
    }
  }

  lemma BufferSteps(g: Agent, q: seq<Frame>, id: nat, p: Bytes)
    requires id in g.streams && g.loop == Delivering(id, p)
    requires g.streams[id].rxAlive && |g.streams[id].channel| < BODY_QUEUE
    ensures Play(Fed, g, q, [Acts(LoopDeliver)] + [Acts(LoopCredit)]) ==
      (Put(g, id, Buffered(g.streams[id], p)).(loop := Ready),
       q + if g.queueOpen then [Frame.WindowUpdate(id, ToU32(|p|))] else [])
  {
    var st := Buffered(g.streams[id], p);
    var g1 := Put(g, id, st).(loop := Crediting(id, ToU32(|p|)));
    One(Fed, g, q, Acts(LoopDeliver));
    assert q + [] == q;
    One(Fed, g1, q, Acts(LoopCredit));
    PlayThen(Fed, g, q, [Acts(LoopDeliver)], [Acts(LoopCredit)]);
    assert g1.streams[id := st] == g.streams[id := st];
  }

  lemma DropSteps(g: Agent, q: seq<Frame>, id: nat)
    requires id in g.streams && g.loop.Discarding? && g.loop.id == id
    ensures Play(Fed, g, q, [Acts(LoopDrop)]) == (Dropped(g, id).(loop := Ready), q)
  {
    One(Fed, g, q, Acts(LoopDrop));
    assert q + [] == q;
  }

  lemma RefuseSteps(g: Agent, q: seq<Frame>, id: nat, p: Bytes)
    requires id in g.streams && g.loop == Delivering(id, p) && !g.streams[id].rxAlive
    ensures Play(Fed, g, q, [Acts(LoopDeliver)] + [Acts(LoopDrop)]) == (Dropped(g, id).(loop := Ready), q)
  {
    var g1 := g.(loop := Discarding(id, p));
    assert g.streams[id := g.streams[id]] == g.streams;
    One(Fed, g, q, Acts(LoopDeliver));
    assert q + [] == q;
    DropSteps(g1, q, id);
    PlayThen(Fed, g, q, [Acts(LoopDeliver)], [Acts(LoopDrop)]);
  }

  lemma TakeSteps(g: Agent, q: seq<Frame>, id: nat, p: Bytes)
    requires g.loop.Ready? && id in g.streams && g.streams[id].inTable
    ensures Play(Fed, g, q, [Reads(Frame.Data(id, p))]) ==
      (g.(loop := if g.streams[id].bodyOpen then Delivering(id, p) else Discarding(id, p)), q)
  {
    assert g.streams[id := g.streams[id]] == g.streams;
    One(Fed, g, q, Reads(Frame.Data(id, p)));
    assert q + [] == q;
  }

  /** Handling a frame is a run of the agent. */
  lemma HandledSteps(g: Agent, q: seq<Frame>, f: Frame)
    requires g.loop.Ready?
    ensures Play(Fed, g, q, HandledTrace(g, f)) == (Handled(g, f).0, q + Handled(g, f).1)
  {
    if f.Data? && f.id in g.streams && g.streams[f.id].inTable {
      var st := g.streams[f.id];
      TakeSteps(g, q, f.id, f.payload);
      assert q + [] == q;
      if !HasRoom(st) {
        assert [Reads(f)] + [] == [Reads(f)];
      } else if !st.bodyOpen {
        DropSteps(g.(loop := Discarding(f.id, f.payload)), q, f.id);
        PlayThen(Fed, g, q, [Reads(f)], [Acts(LoopDrop)]);
      } else if st.rxAlive {
        BufferSteps(g.(loop := Delivering(f.id, f.payload)), q, f.id, f.payload);
        PlayThen(Fed, g, q, [Reads(f)], [Acts(LoopDeliver)] + [Acts(LoopCredit)]);
      } else {
        RefuseSteps(g.(loop := Delivering(f.id, f.payload)), q, f.id, f.payload);
        PlayThen(Fed, g, q, [Reads(f)], [Acts(LoopDeliver)] + [Acts(LoopDrop)]);
      }
    } else {
      HandledAtOnce(g, q, f);
      assert [Reads(f)] + [] == [Reads(f)];
    }
  }

  // ---- the response body ------------------------------------------------------------------------

  /** The task that serves a stream after it has queued `k` chunks of `payload`. */
  function Pushed(st: AgentStream, payload: Bytes, k: nat): AgentStream
    requires k <= |Cut(payload)| && |Flatten(Cut(payload)[..k])| <= st.permits
  {
    var cs := Cut(payload);
    st.(pump := if k == |cs| then Idle else Sending(cs[k..]),
        permits := st.permits - |Flatten(cs[..k])|,
        body := st.body + payload,
        sent := st.sent + Flatten(cs[..k]))
  }

  /** Credit for the next chunk is taken. */
  function Paid(st: AgentStream, payload: Bytes, k: nat): AgentStream
    requires k < |Cut(payload)| && |Flatten(Cut(payload)[..k])| + |Cut(payload)[k]| <= st.permits
  {
    var u := Pushed(st, payload, k);
    u.(pump := Taken(Cut(payload)[k..]), permits := u.permits - |Cut(payload)[k]|)
  }

  /** `send_payload` has failed; `serve_stream` goes on to drop the stream. */
  function GivenUp(st: AgentStream): AgentStream {
    st.(pump := Pump.Stopped, serve := Dropping)
  }

  lemma StartIs(st: AgentStream, payload: Bytes)
    requires st.pump.Idle?
    ensures Pushed(st, payload, 0) ==
      st.(pump := if payload == [] then Idle else Sending(Cut(payload)), body := st.body + payload)
  {
    assert Cut(payload)[0..] == Cut(payload);
    assert st.sent + [] == st.sent;
  }

  lemma NextIs(st: AgentStream, payload: Bytes, k: nat)
    requires k < |Cut(payload)| && |Flatten(Cut(payload)[..k])| + |Cut(payload)[k]| <= st.permits
    ensures |Flatten(Cut(payload)[..k + 1])| <= st.permits
    ensures
      var u := Paid(st, payload, k);
      u.(pump := AfterFrame(u.pump), sent := u.sent + Cut(payload)[k]) == Pushed(st, payload, k + 1)
  {
    var cs := Cut(payload);
    assert cs[..k + 1] == cs[..k] + [cs[k]];
    FlattenAppend(cs[..k], cs[k]);
    assert cs[k..][1..] == cs[k + 1..];
    assert st.sent + Flatten(cs[..k]) + cs[k] == st.sent + (Flatten(cs[..k]) + cs[k]);
  }

  function AfterRound(st: AgentStream, c: Bytes): AgentStream
    requires st.pump.Sending? && st.pump.chunks != [] && |c| <= st.permits
  {
    st.(pump := AfterFrame(Taken(st.pump.chunks)), permits := st.permits - |c|, sent := st.sent + c)
  }

  /** How the stream looks when the loop ends without having sent a frame, or None when it goes on. */
  function GoneAs(st: AgentStream, payload: Bytes, queueOpen: bool): Option<AgentStream> {
    if payload == [] then None
    else if !st.inTable then Some(GivenUp(Pushed(st, payload, 0)))
    else if !queueOpen && |Cut(payload)[0]| <= st.permits then Some(GivenUp(Paid(st, payload, 0)))
    else None
  }

  lemma CutSmall(rest: Bytes)
    requires 0 < |rest| <= MAX_CHUNK
    ensures Cut(rest) == [rest]
  {
  }

  lemma CutLarge(rest: Bytes)
    requires |rest| > MAX_CHUNK
    ensures Cut(rest) == [rest[..MAX_CHUNK]] + Cut(rest[MAX_CHUNK..])
  {
  }

  lemma HeadAndTail(chunks: seq<Bytes>, head: Bytes, tail: seq<Bytes>)
    requires chunks == [head] + tail
    ensures chunks != [] && chunks[0] == head && chunks[1..] == tail
  {
  }

  lemma CutNext(rest: Bytes)
    requires rest != []
    ensures
      var take := if |rest| <= MAX_CHUNK then |rest| else MAX_CHUNK;
      Cut(rest)[0] == rest[..take] && Cut(rest)[1..] == Cut(rest[take..])
  {
    if |rest| <= MAX_CHUNK {
      CutSmall(rest);
      assert rest[..|rest|] == rest && rest[|rest|..] == [];
      HeadAndTail(Cut(rest), rest, []);
    } else {
      CutLarge(rest);
      HeadAndTail(Cut(rest), rest[..MAX_CHUNK], Cut(rest[MAX_CHUNK..]));
    }
  }

  /** One round, for a chunk the credit covers. */
  lemma RoundIs(st: AgentStream, payload: Bytes, k: nat)
    requires k < |Cut(payload)| && |Flatten(Cut(payload)[..k])| <= st.permits
    ensures
      var u, c := Pushed(st, payload, k), Cut(payload)[k];
      && u.pump == Sending(Cut(payload)[k..]) && u.pump.chunks != [] && u.pump.chunks[0] == c
      && u.permits == st.permits - |Flatten(Cut(payload)[..k])| && u.inTable == st.inTable
      && (|c| <= u.permits ==>
            && |Flatten(Cut(payload)[..k + 1])| <= st.permits
            && AfterRound(u, c) == Pushed(st, payload, k + 1)
            && GivenUp(u.(permits := u.permits - |c|)) == GivenUp(Paid(st, payload, k)))
  {
    if |Cut(payload)[k]| <= Pushed(st, payload, k).permits {
      NextIs(st, payload, k);
    }
  }

  predicate CanPush(g: Agent, id: nat) {
    && id in g.streams
    && var st := g.streams[id];
       st.serve.Responding? && st.pump.Idle? && st.inTable
  }

  function RoundTrace(id: nat): seq<AgentInput> {
    [Acts(Do(id, TakeCredit))] + [Acts(Do(id, SendData))]
  }

  function PushTrace(id: nat, payload: Bytes, k: nat): seq<AgentInput> {
    if k == 0 then [Acts(Do(id, ReadLocal(payload)))]
    else PushTrace(id, payload, k - 1) + RoundTrace(id)
  }

  lemma PaidStep(g: Agent, q: seq<Frame>, id: nat, st: AgentStream, payload: Bytes, k: nat)
    requires k < |Cut(payload)| && |Flatten(Cut(payload)[..k])| + |Cut(payload)[k]| <= st.permits
    requires st.inTable && id in g.streams && g.streams[id] == Pushed(st, payload, k)
    ensures Play(Fed, g, q, [Acts(Do(id, TakeCredit))]) == (g.(streams := g.streams[id := Paid(st, payload, k)]), q)
  {
    LocalStep(g, q, id, TakeCredit, Paid(st, payload, k), []);
    assert q + [] == q;
  }

  lemma SentStep(g: Agent, q: seq<Frame>, id: nat, st: AgentStream, payload: Bytes, k: nat)
    requires k < |Cut(payload)| && |Flatten(Cut(payload)[..k])| + |Cut(payload)[k]| <= st.permits
    requires id in g.streams && g.streams[id] == Paid(st, payload, k) && g.queueOpen
    ensures |Flatten(Cut(payload)[..k + 1])| <= st.permits
    ensures Play(Fed, g, q, [Acts(Do(id, SendData))]) ==
      (g.(streams := g.streams[id := Pushed(st, payload, k + 1)]), q + [Frame.Data(id, Cut(payload)[k])])
  {
    NextIs(st, payload, k);
    LocalStep(g, q, id, SendData, Pushed(st, payload, k + 1), [Frame.Data(id, Cut(payload)[k])]);
  }

  lemma RoundSteps(g: Agent, q: seq<Frame>, id: nat, st: AgentStream, payload: Bytes, k: nat)
    requires k < |Cut(payload)| && |Flatten(Cut(payload)[..k])| + |Cut(payload)[k]| <= st.permits
    requires st.inTable && g.queueOpen && id in g.streams && g.streams[id] == Pushed(st, payload, k)
    ensures |Flatten(Cut(payload)[..k + 1])| <= st.permits
    ensures Play(Fed, g, q, RoundTrace(id)) ==
      (g.(streams := g.streams[id := Pushed(st, payload, k + 1)]), q + [Frame.Data(id, Cut(payload)[k])])
  {
    PaidStep(g, q, id, st, payload, k);
    var g1 := g.(streams := g.streams[id := Paid(st, payload, k)]);
    SentStep(g1, q, id, st, payload, k);
    PlayThen(Fed, g, q, [Acts(Do(id, TakeCredit))], [Acts(Do(id, SendData))]);
    PutTwice(g.streams, id, Paid(st, payload, k), Pushed(st, payload, k + 1));
  }

  lemma StartSteps(g: Agent, q: seq<Frame>, id: nat, payload: Bytes)
    requires id in g.streams && g.streams[id].serve.Responding? && g.streams[id].pump.Idle?
    ensures Play(Fed, g, q, PushTrace(id, payload, 0)) ==
      (g.(streams := g.streams[id := Pushed(g.streams[id], payload, 0)]), q + DataFrames(id, Cut(payload)[..0]))
  {
    var st := g.streams[id];
    StartIs(st, payload);
    assert st.body + [] == st.body;
    LocalStep(g, q, id, ReadLocal(payload), Pushed(st, payload, 0), []);
    assert q + DataFrames(id, Cut(payload)[..0]) == q + [];
  }

  /** The first `k` chunks go out, in order and each paid for. */
  lemma {:induction false} PushSteps(g: Agent, q: seq<Frame>, id: nat, payload: Bytes, k: nat)
    requires CanPush(g, id) && g.queueOpen
    requires k <= |Cut(payload)| && |Flatten(Cut(payload)[..k])| <= g.streams[id].permits
    ensures Play(Fed, g, q, PushTrace(id, payload, k)) ==
      (g.(streams := g.streams[id := Pushed(g.streams[id], payload, k)]), q + DataFrames(id, Cut(payload)[..k]))
  {
    if k == 0 {
      StartSteps(g, q, id, payload);
    } else {
      var st, cs := g.streams[id], Cut(payload);
      assert cs[..k] == cs[..k - 1] + [cs[k - 1]];
      FlattenAppend(cs[..k - 1], cs[k - 1]);
      PushSteps(g, q, id, payload, k - 1);
      var g1 := g.(streams := g.streams[id := Pushed(st, payload, k - 1)]);
      var q1 := q + DataFrames(id, cs[..k - 1]);
      RoundSteps(g1, q1, id, st, payload, k - 1);
      PlayThen(Fed, g, q, PushTrace(id, payload, k - 1), RoundTrace(id));
      PutTwice(g.streams, id, Pushed(st, payload, k - 1), Pushed(st, payload, k));
      FramesNext(q, id, cs, k - 1);
    }
  }

  /** The other ways a call can go: the stream has been dropped before a frame was sent. */
  lemma DroppedSteps(g: Agent, q: seq<Frame>, id: nat, payload: Bytes)
    requires id in g.streams && g.streams[id].serve.Responding? && g.streams[id].pump.Idle?
    requires payload != [] && !g.streams[id].inTable
    ensures Play(Fed, g, q, PushTrace(id, payload, 0) + [Acts(Do(id, PumpStop))]) ==
      (g.(streams := g.streams[id := GivenUp(Pushed(g.streams[id], payload, 0))]), q)
  {
    var u := Pushed(g.streams[id], payload, 0);
    StartSteps(g, q, id, payload);
    assert q + DataFrames(id, Cut(payload)[..0]) == q;
    var g1 := g.(streams := g.streams[id := u]);
    LocalStep(g1, q, id, PumpStop, GivenUp(u), []);
    assert q + [] == q;
    PlayThen(Fed, g, q, PushTrace(id, payload, 0), [Acts(Do(id, PumpStop))]);
    PutTwice(g.streams, id, u, GivenUp(u));
  }

  /** Or the credit covers the first chunk and the queue is closed. */
  lemma CutOffSteps(g: Agent, q: seq<Frame>, id: nat, payload: Bytes)
    requires CanPush(g, id) && payload != [] && !g.queueOpen && |Cut(payload)[0]| <= g.streams[id].permits
    ensures Play(Fed, g, q, PushTrace(id, payload, 0) + RoundTrace(id)) ==
      (g.(streams := g.streams[id := GivenUp(Paid(g.streams[id], payload, 0))]), q)
  {
    var st := g.streams[id];
    StartSteps(g, q, id, payload);
    assert q + DataFrames(id, Cut(payload)[..0]) == q;
    var g1 := g.(streams := g.streams[id := Pushed(st, payload, 0)]);
    PlayThen(Fed, g, q, PushTrace(id, payload, 0), RoundTrace(id));
    PaidStep(g1, q, id, st, payload, 0);
    var g2 := g1.(streams := g1.streams[id := Paid(st, payload, 0)]);
    PlayThen(Fed, g1, q, [Acts(Do(id, TakeCredit))], [Acts(Do(id, SendData))]);
    LocalStep(g2, q, id, SendData, GivenUp(Paid(st, payload, 0)), []);
    assert q + [] == q;
    PutTwice(g.streams, id, Pushed(st, payload, 0), Paid(st, payload, 0));
    PutTwice(g.streams, id, Paid(st, payload, 0), GivenUp(Paid(st, payload, 0)));
  }

  /** The run that a call of the response loop performs. */
  lemma TraceOf(g: Agent, q: seq<Frame>, id: nat, payload: Bytes, r: SendResult, k: nat, g1: Agent, q1: seq<Frame>) returns (trace: seq<AgentInput>)
    requires id in g.streams && g.streams[id].serve.Responding? && g.streams[id].pump.Idle?
    requires
      var st, cs := g.streams[id], Cut(payload);
      && k <= |cs| && |Flatten(cs[..k])| <= st.permits
      && q1 == q + DataFrames(id, cs[..k]) && (k > 0 ==> g.queueOpen && st.inTable)
      && (match r
          case StreamGone => k == 0 && GoneAs(st, payload, g.queueOpen).Some?
            && g1 == g.(streams := g.streams[id := GoneAs(st, payload, g.queueOpen).value])
          case _ => g1 == g.(streams := g.streams[id := Pushed(st, payload, k)]))
    ensures Play(Fed, g, q, trace) == (g1, q1)
  {
    assert q + DataFrames(id, Cut(payload)[..0]) == q;
    if r.StreamGone? {
      if !g.streams[id].inTable {
        DroppedSteps(g, q, id, payload);
        trace := PushTrace(id, payload, 0) + [Acts(Do(id, PumpStop))];
      } else {
        CutOffSteps(g, q, id, payload);
        trace := PushTrace(id, payload, 0) + RoundTrace(id);
      }
    } else {
      if k == 0 {
        StartSteps(g, q, id, payload);
      } else {
        PushSteps(g, q, id, payload, k);
      }
      trace := PushTrace(id, payload, k);
    }
  }
}
