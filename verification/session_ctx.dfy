/** The agent's session object: the stream table behind its lock and the outbound queue. */
module AgentObject {
  import opened Wrappers
  import opened Frames
  import opened Runs
  import opened Flow
  import opened A = Agent
  import opened AgentSteps

  class SessionCtx {
    var streams: map<nat, AgentStream>
    var queueOpen: bool
    var outbound: seq<Frame>
    ghost var loop: AgentLoop       // where the read loop is

    ghost function State(): A.Agent
      reads this
    {
      A.Agent(streams, loop, queueOpen)
    }

    constructor ()
      ensures State() == Init() && outbound == []
    {
      streams := map[];
      queueOpen := true;
      outbound := [];
      loop := Ready;
    }

    /** Queues a frame; false when the queue has no receiver. */
    method Send(f: Frame) returns (ok: bool)
      modifies this`outbound
      ensures ok == queueOpen
      ensures outbound == if ok then old(outbound) + [f] else old(outbound)
    {
      ok := queueOpen;
      if ok {
        outbound := outbound + [f];
      }
    }

    /** Removes a stream, waking whoever is parked on its send window. */
    method DropStream(id: nat)
      modifies this`streams
      ensures State() == Dropped(old(State()), id)
    {
      if id in streams && streams[id].inTable {
        streams := streams[id := streams[id].(inTable := false)];
      } else if id in streams {
        assert streams[id := streams[id]] == streams;
      }
    }

    /** Marks the request body complete; the entry stays. */
    method CloseRequestBody(id: nat)
      modifies this`streams
      ensures State() == Handled(old(State()), Frame.End(id)).0
    {
      if id in streams && streams[id].inTable {
        streams := streams[id := streams[id].(bodyOpen := false)];
      }
    }

    /** The Data arm: buffers the payload and returns its credit, or drops the stream, or waits. */
    method OnData(id: nat, payload: Bytes)
      requires loop.Ready?
      modifies this`streams, this`outbound, this`loop
      ensures State() == Handled(old(State()), Frame.Data(id, payload)).0
      ensures outbound == old(outbound) + Handled(old(State()), Frame.Data(id, payload)).1
    {
      ghost var q := outbound;
      assert q + [] == q;
      if !(id in streams && streams[id].inTable) {
        return;
      }
      var st := streams[id];
      if !st.bodyOpen || !st.rxAlive {
        DropStream(id);
      } else if |st.channel| < BODY_QUEUE {
        streams := streams[id := st.(channel := st.channel + [payload], received := st.received + [payload])];
        var _ := Send(Frame.WindowUpdate(id, ToU32(|payload|)));
      } else {
        loop := Delivering(id, payload);
      }
    }

    /** Handles one frame from the edge. */
    method HandleServerFrame(f: Frame)
      requires loop.Ready?
      modifies this`streams, this`outbound, this`loop
      ensures State() == Handled(old(State()), f).0
      ensures outbound == old(outbound) + Handled(old(State()), f).1
    {
      ghost var q := outbound;
      assert q + [] == q;
      match f {
        case Open(id, window) => streams := streams[id := Register(window)];
        case Data(id, payload) => OnData(id, payload);
        case End(id) => CloseRequestBody(id);
        case Reset(id) =>
          if id in streams {
            assert !streams[id].inTable ==> streams[id := streams[id].(inTable := false)] == streams;
          }
          DropStream(id);
        case WindowUpdate(id, n) =>
          if id in streams && streams[id].inTable {
            streams := streams[id := streams[id].(permits := streams[id].permits + n)];
          }
        case ResponseHead(_) =>
      }
    }

    /** One round of the loop: credit for the next chunk, or no round; then its frame. */
    method SendChunk(id: nat, c: Bytes) returns (r: SendResult)
      requires id in streams && streams[id].pump.Sending? && streams[id].pump.chunks != [] && c == streams[id].pump.chunks[0]
      modifies this`streams, this`outbound
      ensures
        var st := old(streams)[id];
        if !st.inTable then
          r == StreamGone && streams == old(streams)[id := GivenUp(st)] && outbound == old(outbound)
        else if |c| > st.permits then
          r == Parked && streams == old(streams) && outbound == old(outbound)
        else if queueOpen then
          && r == Sent
          && streams == old(streams)[id := AfterRound(st, c)]
          && outbound == old(outbound) + [Frame.Data(id, c)]
        else
          && r == StreamGone
          && streams == old(streams)[id := GivenUp(st.(permits := st.permits - |c|))]
          && outbound == old(outbound)
    {
      var st := streams[id];
      if !st.inTable {
        streams := streams[id := GivenUp(st)];
        return StreamGone;
      }
      if |c| > st.permits {
        return Parked;
      }
      streams := streams[id := st.(pump := Taken(st.pump.chunks), permits := st.permits - |c|)];
      var sent := Send(Frame.Data(id, c));
      if sent {
        streams := streams[id := streams[id].(pump := AfterFrame(streams[id].pump), sent := streams[id].sent + c)];
        r := Sent;
      } else {
        streams := streams[id := GivenUp(streams[id])];
        r := StreamGone;
      }
    }

    /** The round for chunk `k` of a payload. */
    method SendPiece(id: nat, c: Bytes, ghost m: map<nat, AgentStream>, ghost st: AgentStream, ghost payload: Bytes, ghost k: nat) returns (r: SendResult)
      requires k < |Cut(payload)| && |Flatten(Cut(payload)[..k])| <= st.permits && c == Cut(payload)[k]
      requires streams == m[id := Pushed(st, payload, k)]
      modifies this`streams, this`outbound
      ensures r.Parked? <==> st.inTable && |Flatten(Cut(payload)[..k])| + |c| > st.permits
      ensures r.Parked? ==> streams == old(streams)
      ensures r.Sent? ==> queueOpen && st.inTable && |Flatten(Cut(payload)[..k + 1])| <= st.permits
      ensures r.Sent? ==> streams == m[id := Pushed(st, payload, k + 1)]
      ensures r.StreamGone? ==> !st.inTable || !queueOpen
      ensures r.StreamGone? ==> streams == m[id := if st.inTable then GivenUp(Paid(st, payload, k)) else GivenUp(Pushed(st, payload, k))]
      ensures outbound == if r.Sent? then old(outbound) + [Frame.Data(id, c)] else old(outbound)
    {
      ghost var u := Pushed(st, payload, k);
      RoundIs(st, payload, k);
      r := SendChunk(id, c);
      PutTwice(m, id, u, streams[id]);
    }

    /** The cutting loop. */
    method SendChunks(id: nat, ghost st: AgentStream, payload: Bytes) returns (r: SendResult, k: nat)
      requires id in streams && streams[id] == Pushed(st, payload, 0)
      modifies this`streams, this`outbound
      ensures k <= |Cut(payload)| && |Flatten(Cut(payload)[..k])| <= st.permits
      ensures outbound == old(outbound) + DataFrames(id, Cut(payload)[..k])
      ensures r.Sent? <==> k == |Cut(payload)|
      ensures k > 0 ==> queueOpen && st.inTable
      ensures r.Sent? || r.Parked? ==> streams == old(streams)[id := Pushed(st, payload, k)]
      ensures r.Parked? ==> st.inTable && |Flatten(Cut(payload)[..k])| + |Cut(payload)[k]| > st.permits
      ensures r.StreamGone? ==> k == 0 && GoneAs(st, payload, queueOpen).Some?
      ensures r.StreamGone? ==> streams == old(streams)[id := GoneAs(st, payload, queueOpen).value]
    {
      ghost var m, q, cs := streams, outbound, Cut(payload);
      k := 0;
      var rest := payload;
      while rest != []
        invariant 0 <= k <= |cs| && |Flatten(cs[..k])| <= st.permits
        invariant cs[k..] == Cut(rest)
        invariant streams == m[id := Pushed(st, payload, k)]
        invariant outbound == q + DataFrames(id, cs[..k])
        invariant k > 0 ==> queueOpen && st.inTable
        decreases |rest|
      {
        var take := if |rest| <= MAX_CHUNK then |rest| else MAX_CHUNK;
        var chunk := rest[..take];
        CutNext(rest);
        var round := SendPiece(id, chunk, m, st, payload, k);
        if !round.Sent? {
          return round, k;
        }
        FramesNext(q, id, cs, k);
        rest := rest[take..];
        assert cs[k..][1..] == cs[k + 1..];
        k := k + 1;
      }
      r := Sent;
    }

    /** Sends response bytes upstream as far as the credit goes: the chunks go out in order, each
        paid for before it is queued, and what stops the task is a chunk the credit does not cover,
        a stream that is gone, or a closed queue. Nothing is sent for an empty payload. */
    method SendPayload(id: nat, payload: Bytes) returns (r: SendResult, k: nat, ghost trace: seq<AgentInput>)
      requires id in streams && streams[id].serve.Responding? && streams[id].pump.Idle?
      modifies this`streams, this`outbound
      ensures
        var st, cs := old(streams)[id], Cut(payload);
        && k <= |cs| && |Flatten(cs[..k])| <= st.permits
        && outbound == old(outbound) + DataFrames(id, cs[..k])
        && (r.Sent? <==> k == |cs|)
        && (k > 0 ==> queueOpen && st.inTable)
        && (match r
            case StreamGone => k == 0 && GoneAs(st, payload, queueOpen).Some? && streams == old(streams)[id := GoneAs(st, payload, queueOpen).value]
            case _ => streams == old(streams)[id := Pushed(st, payload, k)])
        && (r.Parked? ==> st.inTable && |Flatten(cs[..k])| + |cs[k]| > st.permits)
      ensures (State(), outbound) == Play(Fed, old(State()), old(outbound), trace)
    {
      ghost var g, q, m := State(), outbound, streams;
      var st := streams[id];
      StartIs(st, payload);
      streams := streams[id := st.(pump := if payload == [] then Idle else Sending(Cut(payload)), body := st.body + payload)];
      ghost var u := streams[id];
      r, k := SendChunks(id, st, payload);
      PutTwice(m, id, u, streams[id]);
      trace := TraceOf(g, q, id, payload, r, k, State(), outbound);
    }

    /** How `serve_stream` ends, whatever has happened: it drops the stream. */
    method EndServing(id: nat)
      requires id in streams && streams[id].serve.Dropping?
      modifies this`streams
      ensures (State(), outbound) == Play(Fed, old(State()), old(outbound), [Acts(Do(id, AgentLocal.DropStream))])
      ensures id in streams && !streams[id].inTable && streams[id].serve.Finished?
    {
      ghost var g, q := State(), outbound;
      LocalStep(g, q, id, AgentLocal.DropStream, g.streams[id].(serve := Serve.Finished, inTable := false), []);
      assert q + [] == q;
      DropStream(id);
      streams := streams[id := streams[id].(serve := Serve.Finished)];
      PutTwice(g.streams, id, g.streams[id].(inTable := false), streams[id]);
    }
  }
}
