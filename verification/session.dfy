/** The edge's session object: its stream table, counter and outbound queue updated in place. */
module SessionObject {
  import opened Wrappers
  import opened Frames
  import opened Runs
  import opened Flow
  import opened Edge
  import opened EdgeRuns
  import opened SessionSteps

  datatype OpenError = SessionGone | TooManyStreams(limit: nat)

  /** `tx.send` on a body channel: taken, refused because nobody receives, or still waiting. */
  datatype Delivery = Accepted | Refused | Waits

  /** The run that a call of the upload loop performs. */
  lemma TraceOf(e: Edge, q: seq<Frame>, id: nat, payload: Bytes, r: SendResult, k: nat, e1: Edge, q1: seq<Frame>) returns (trace: seq<Input>)
    requires CanUpload(e, id, payload) || payload == []
    requires payload != [] ==>
      var st, cs := e.streams[id], Pieces(payload);
      && k <= |cs| && |Flatten(cs[..k])| <= st.permits
      && q1 == q + DataFrames(id, cs[..k]) && (k > 0 ==> e.queueOpen)
      && (match r
          case StreamGone => !e.queueOpen && |cs[0]| <= st.permits && k == 0
            && e1 == e.(streams := e.streams[id := Paid(st, payload, 0).(pump := Pump.Stopped)])
          case _ => e1 == e.(streams := e.streams[id := Uploaded(st, payload, k)]))
    ensures payload != [] ==> Play(Fed, e, q, trace) == (e1, q1)
  {
    trace := [];
    if payload != [] {
      assert q + DataFrames(id, Pieces(payload)[..0]) == q;
      if r.StreamGone? {
        CutOffSteps(e, q, id, payload);
        trace := UploadTrace(id, payload, 0) + RoundTrace(id);
      } else {
        if k == 0 {
          StartSteps(e, q, id, payload);
        } else {
          UploadSteps(e, q, id, payload, k);
        }
        trace := UploadTrace(id, payload, k);
      }
    }
  }

  class Session {
    const limit: nat
    const window: nat
    var nextStreamId: nat
    var openStreams: nat
    var streams: map<nat, EdgeStream>
    var queueOpen: bool
    var outbound: seq<Frame>
    ghost var admitted: nat         // other tasks past the limit check
    ghost var loop: EdgeLoop        // where the read loop is

    ghost function State(): Edge
      reads this
    {
      Edge(limit, window, nextStreamId, openStreams, admitted, streams, loop, queueOpen)
    }

    constructor (limit: nat, window: nat)
      ensures State() == Init(limit, window) && outbound == []
    {
      this.limit := limit;
      this.window := window;
      nextStreamId := 1;
      openStreams := 0;
      streams := map[];
      admitted := 0;
      loop := Ready;
      queueOpen := true;
      outbound := [];
    }

    /** Queues a frame; false when the queue has no receiver. */
    method Send(f: Frame) returns (ok: bool)
      modifies this`outbound
      ensures ok == queueOpen
      ensures outbound == if ok then old(outbound) + [f] else old(outbound)
    {
      ok := queueOpen;
      if ok {
        outbound := outbound + [f];
      }
    }

    /** Removes the entry, then closes its semaphore and takes it off the counter; nothing when some
        other caller has removed it. */
    method CloseStream(id: nat)
      modifies this`streams, this`openStreams
      ensures State() == ClosedNow(old(State()), id)
    {
      if id in streams && streams[id].inTable {
        ghost var e := State();
        streams := streams[id := streams[id].(inTable := false, closer := Removed)];
        streams := streams[id := streams[id].(closer := Closer.SemaphoreClosed)];
        openStreams := (openStreams + U64 - 1) % U64;
        streams := streams[id := streams[id].(closer := Finished)];
        assert streams == ClosedNow(e, id).streams;
      }
    }

    /** Tears every stream down: no entry is left, and the counter is down by as many. */
    method CloseAllStreams()
      requires openStreams < U64
      modifies this`streams, this`openStreams
      ensures State() == ClosedSet(old(State()), Table(old(State())))
      ensures Table(State()) == {}
    {
      ghost var e := State();
      var ids := set i | i in streams && streams[i].inTable;
      assert ids == Table(e);
      ghost var n := 0;
      NoneClosed(e);
      AllIsTheTable(e);
      while ids != {}
        invariant ids <= Table(e)
        invariant State() == PartlyClosed(e, ids, n)
        invariant n == |Table(e)| - |ids|
        decreases |ids|
      {
        var id :| id in ids;
        CloseOne(e, ids, id, n);
        CloseStream(id);
        n := n + 1;
        ids := ids - {id};
      }
    }

    /** The opener takes a stream down again that it could not announce. */
    method FailOpen(id: nat)
      requires id in Table(State()) && streams[id].handler.OpenFailed?
      modifies this`openStreams, this`streams
      ensures State() == GaveUp(old(State()), id)
    {
      ghost var e := State();
      CloseStream(id);
      streams := streams[id := streams[id].(handler := Returning, reply := TunnelNotFound)];
      assert streams == GaveUp(e, id).streams;
    }

    /** Opens a stream and tells the agent. Refused without a trace at the limit; otherwise the
        stream gets the next id and is counted, and its Open is the last frame queued; when the
        queue is closed the stream is taken down again. */
    method OpenHttpStream() returns (r: Result<nat, OpenError>)
      modifies this`nextStreamId, this`openStreams, this`streams, this`outbound
      ensures limit > 0 && old(openStreams) >= limit ==>
        r == Failure(TooManyStreams(limit)) && State() == old(State()) && outbound == old(outbound)
      ensures !(limit > 0 && old(openStreams) >= limit) && queueOpen ==>
        && r == Success(old(nextStreamId)) && State() == Opened(old(State()))
        && outbound == old(outbound) + [Frame.Open(old(nextStreamId), window)]
      ensures !(limit > 0 && old(openStreams) >= limit) && !queueOpen ==>
        r == Failure(SessionGone) && State() == OpenFailedNow(old(State())) && outbound == old(outbound)
    {
      if limit > 0 && openStreams >= limit {
        return Failure(TooManyStreams(limit));
      }
      ghost var e := State();
      var id := nextStreamId;
      nextStreamId := nextStreamId + 1;
      streams := streams[id := Fresh(window).(handler := Inserted, inTable := true)];
      openStreams := (openStreams + 1) % U64;
      var sent := Send(Frame.Open(id, window));
      if sent {
        streams := streams[id := CountedStream(window).(handler := Waiting, announced := true)];
        assert streams == Opened(e).streams;
        r := Success(id);
      } else {
        streams := streams[id := CountedStream(window).(handler := OpenFailed)];
        assert streams == Unannounced(e).streams;
        FailOpen(id);
        r := Failure(SessionGone);
      }
    }

    /** One round of the upload loop: credit for the next chunk, or no round; then its frame. */
    method SendChunk(id: nat) returns (r: SendResult)
      requires id in streams && streams[id].pump.Sending? && streams[id].pump.chunks != []
      modifies this`streams, this`outbound
      ensures
        var st := old(streams)[id];
        var c := st.pump.chunks[0];
        if |c| > st.permits then
          r == Parked && streams == old(streams) && outbound == old(outbound)
        else if queueOpen then
          && r == Sent
          && streams == old(streams)[id := AfterRound(st, c)]
          && outbound == old(outbound) + [Frame.Data(id, c)]
        else
          && r == StreamGone
          && streams == old(streams)[id := CutOff(st, c)]
          && outbound == old(outbound)
    {
      var st := streams[id];
      var chunks := st.pump.chunks;
      if |chunks[0]| > st.permits {
        return Parked;
      }
      streams := streams[id := st.(pump := Taken(chunks), permits := st.permits - |chunks[0]|)];
      var sent := Send(Frame.Data(id, chunks[0]));
      if sent {
        streams := streams[id := streams[id].(pump := AfterFrame(streams[id].pump), queued := streams[id].queued + chunks[0])];
        r := Sent;
      } else {
        streams := streams[id := streams[id].(pump := Pump.Stopped)];
        r := StreamGone;
      }
    }

    /** The round for chunk `k` of a payload. */
    method SendPiece(id: nat, ghost m: map<nat, EdgeStream>, ghost st: EdgeStream, ghost payload: Bytes, ghost k: nat) returns (r: SendResult)
      requires k < |Pieces(payload)| && |Flatten(Pieces(payload)[..k])| <= st.permits
      requires streams == m[id := Uploaded(st, payload, k)]
      modifies this`streams, this`outbound
      ensures r.Parked? <==> |Flatten(Pieces(payload)[..k])| + |Pieces(payload)[k]| > st.permits
      ensures r.Parked? ==> streams == old(streams)
      ensures r.Sent? ==> queueOpen && |Flatten(Pieces(payload)[..k + 1])| <= st.permits
      ensures r.Sent? ==> streams == m[id := Uploaded(st, payload, k + 1)]
      ensures r.StreamGone? ==> !queueOpen && streams == m[id := Paid(st, payload, k).(pump := Pump.Stopped)]
      ensures outbound == if r.Sent? then old(outbound) + [Frame.Data(id, Pieces(payload)[k])] else old(outbound)
    {
      ghost var u := Uploaded(st, payload, k);
      RoundIs(st, payload, k);
      r := SendChunk(id);
      PutTwice(m, id, u, streams[id]);
    }

    /** The loop over the chunks. */
    method SendChunks(id: nat, ghost st: EdgeStream, payload: Bytes) returns (r: SendResult, k: nat)
      requires id in streams && streams[id] == Uploaded(st, payload, 0)
      modifies this`streams, this`outbound
      ensures k <= |Pieces(payload)| && |Flatten(Pieces(payload)[..k])| <= st.permits
      ensures outbound == old(outbound) + DataFrames(id, Pieces(payload)[..k])
      ensures r.Sent? <==> k == |Pieces(payload)|
      ensures r.StreamGone? ==> !queueOpen && k == 0 && |Pieces(payload)[0]| <= st.permits
      ensures r.StreamGone? ==> streams == old(streams)[id := Paid(st, payload, 0).(pump := Pump.Stopped)]
      ensures !r.StreamGone? ==> streams == old(streams)[id := Uploaded(st, payload, k)] && (k > 0 ==> queueOpen)
      ensures r.Parked? ==> |Flatten(Pieces(payload)[..k])| + |Pieces(payload)[k]| > st.permits
    {
      ghost var m, q, cs := streams, outbound, Pieces(payload);
      k := 0;
      assert q + DataFrames(id, cs[..0]) == q;
      var chunks := SplitChunks(payload);
      while k < |chunks|
        invariant 0 <= k <= |cs| && |Flatten(cs[..k])| <= st.permits
        invariant streams == m[id := Uploaded(st, payload, k)]
        invariant outbound == q + DataFrames(id, cs[..k])
        invariant k > 0 ==> queueOpen
      {
        var round := SendPiece(id, m, st, payload, k);
        if !round.Sent? {
          return round, k;
        }
        FramesNext(q, id, cs, k);
        k := k + 1;
      }
      r := Sent;
    }

    /** Uploads a payload as far as the credit goes: the chunks go out in order, each paid for
        before it is queued, and what stops the task is a chunk the credit does not cover, a stream
        that is gone, or a closed queue. */
    method SendStreamData(id: nat, payload: Bytes) returns (r: SendResult, k: nat, ghost trace: seq<Input>)
      requires id in streams ==> streams[id].announced && streams[id].pump.Idle?
      requires id in streams && streams[id].inTable ==> !SemaphoreShut(streams[id])
      modifies this`streams, this`outbound
      ensures !(id in old(streams) && old(streams)[id].inTable) ==>
        && r == StreamGone && outbound == old(outbound)
        && streams == if id in old(streams) && payload != [] then old(streams)[id := TurnedAway(old(streams)[id], payload)] else old(streams)
      ensures id in old(streams) && old(streams)[id].inTable && queueOpen ==>
        var st, cs := old(streams)[id], Pieces(payload);
        && k <= |cs| && |Flatten(cs[..k])| <= st.permits
        && streams == old(streams)[id := Uploaded(st, payload, k)]
        && outbound == old(outbound) + DataFrames(id, cs[..k])
        && (if k == |cs| then r == Sent else r == Parked && |Flatten(cs[..k])| + |cs[k]| > st.permits)
      ensures id in old(streams) && old(streams)[id].inTable && !queueOpen ==>
        var st, cs := old(streams)[id], Pieces(payload);
        && outbound == old(outbound)
        && (if |cs[0]| <= st.permits
            then r == StreamGone && streams == old(streams)[id := Paid(st, payload, 0).(pump := Pump.Stopped)]
            else r == Parked && streams == old(streams)[id := Uploaded(st, payload, 0)])
      ensures payload != [] ==> (State(), outbound) == Play(Fed, old(State()), old(outbound), trace)
    {
      k := 0;
      trace := [];
      if id !in streams {
        return StreamGone, 0, [];
      }
      ghost var e, q := State(), outbound;
      var st := streams[id];
      if st.inTable {
        streams := streams[id := st.(pump := Sending(Pieces(payload)), body := st.body + payload)];
        StartIs(st, payload);
        PutTwice(e.streams, id, streams[id], streams[id]);
        r, k := SendChunks(id, st, payload);
        assert old(outbound) + DataFrames(id, Pieces(payload)[..0]) == old(outbound);
        trace := TraceOf(e, q, id, payload, r, k, State(), outbound);
      } else {
        if payload != [] {
          GoneSteps(e, q, id, payload);
          streams := streams[id := TurnedAway(st, payload)];
          trace := UploadTrace(id, payload, 0);
        }
        r := StreamGone;
      }
    }

    /** Signals the end of the request body. */
    method SendStreamEnd(id: nat) returns (ok: bool)
      requires id in streams && streams[id].announced && streams[id].pump.Idle?
      modifies this`streams, this`outbound
      ensures ok == queueOpen
      ensures (State(), outbound) == Play(Fed, old(State()), old(outbound), [Act(Do(id, Upload(EndBody)))])
      ensures outbound == if ok then old(outbound) + [Frame.End(id)] else old(outbound)
    {
      ghost var e, q := State(), outbound;
      ok := Send(Frame.End(id));
      streams := streams[id := streams[id].(pump := if ok then Ended else Pump.Stopped)];
      LocalStep(e, q, id, Upload(EndBody), streams[id], if ok then [Frame.End(id)] else []);
      One(Fed, e, q, Act(Do(id, Upload(EndBody))));
      assert q + [] == q;
    }

    /** Aborts a stream and tells the agent: the call of a handler at its timeout or of the upload
        task when the client's body fails, after which the caller goes on. */
    method ResetStream(id: nat, who: Resetter)
      requires id in streams && MayReset(streams[id], who) && !who.Guard?
      modifies this`streams, this`openStreams, this`outbound
      ensures State() == ResetNow(old(State()), id, who)
      ensures id !in Table(State()) && outbound == if queueOpen then old(outbound) + [Frame.Reset(id)] else old(outbound)
      ensures (State(), outbound) == Play(Fed, old(State()), old(outbound), ResetTrace(old(State()), id, who, true))
    {
      ghost var e, q := State(), outbound;
      ResetSteps(e, q, id, who, true);
      assert q + [] == q;
      CloseStream(id);
      var _ := Send(Frame.Reset(id));
      streams := streams[id := Noticed(streams[id], who)];
      assert streams == ResetNow(e, id, who).streams;
    }

    /** The response body is dropped: the stream is released, and the agent is told if the queue
        takes the frame at once. */
    method DropGuard(id: nat, fits: bool)
      requires id in streams && MayReset(streams[id], Guard)
      modifies this`streams, this`openStreams, this`outbound
      ensures State() == ResetNow(old(State()), id, Guard)
      ensures id !in Table(State()) && outbound == if queueOpen && fits then old(outbound) + [Frame.Reset(id)] else old(outbound)
      ensures (State(), outbound) == Play(Fed, old(State()), old(outbound), ResetTrace(old(State()), id, Guard, fits))
    {
      ghost var e, q := State(), outbound;
      ResetSteps(e, q, id, Guard, fits);
      assert q + [] == q;
      CloseStream(id);
      if fits {
        var _ := Send(Frame.Reset(id));
      }
      streams := streams[id := Noticed(streams[id], Guard)];
      assert streams == ResetNow(e, id, Guard).streams;
    }

    /** Returns credit for bytes that were forwarded; nothing is sent for nothing. It is what the read
        loop does after a delivery. */
    method GrantWindow(id: nat, increment: nat) returns (ok: bool)
      requires increment > 0 ==> loop == Granting(id, increment) && id in streams
      modifies this`outbound, this`loop
      ensures ok == (increment == 0 || queueOpen)
      ensures outbound == if increment > 0 && queueOpen then old(outbound) + [Frame.WindowUpdate(id, increment)] else old(outbound)
      ensures (State(), outbound) == Play(Fed, old(State()), old(outbound), if increment > 0 then [Act(LoopGrant)] else [])
    {
      if increment == 0 {
        return true;
      }
      GrantSteps(State(), outbound, id, increment);
      ghost var q := outbound;
      assert q + [] == q;
      ok := Send(Frame.WindowUpdate(id, increment));
      loop := Ready;
    }

    /** Applies credit granted by the agent. */
    method OnWindowUpdate(id: nat, increment: nat)
      requires loop.Ready?
      modifies this`streams
      ensures State() == Accept(old(State()), Frame.WindowUpdate(id, increment))
    {
      if id in streams && streams[id].inTable {
        streams := streams[id := streams[id].(permits := streams[id].permits + increment)];
      } else if id in streams {
        assert streams[id := streams[id]] == streams;
      }
    }

    /** Hands the response head to whoever waits for it. */
    method OnResponseHead(id: nat)
      requires loop.Ready?
      modifies this`streams
      ensures State() == Accept(old(State()), Frame.ResponseHead(id))
    {
      if id in streams && streams[id].inTable {
        streams := streams[id := streams[id].(headSent := true)];
      } else if id in streams {
        assert streams[id := streams[id]] == streams;
      }
    }

    /** `tx.send`, as far as it goes without waiting for room. */
    method TrySend(id: nat, chunk: Chunk) returns (d: Delivery)
      requires id in streams
      modifies this`streams
      ensures d.Waits? <==> !HasRoom(old(streams)[id])
      ensures d.Accepted? <==> old(streams)[id].rxAlive && HasRoom(old(streams)[id])
      ensures streams == if d.Waits? then old(streams) else old(streams)[id := Delivered(old(streams)[id], chunk)]
    {
      var st := streams[id];
      if !st.rxAlive {
        assert streams[id := st] == streams;
        return Refused;
      }
      if |st.channel| >= BODY_QUEUE {
        return Waits;
      }
      streams := streams[id := st.(channel := st.channel + [chunk], handed := st.handed + [chunk])];
      d := Accepted;
    }

    /** Delivers body bytes. The result is what the caller may grant back: all of them, or nothing
        when the stream is gone or nobody reads it; None while the channel is full. */
    method OnStreamData(id: nat, payload: Bytes) returns (accepted: Option<nat>)
      requires loop.Ready?
      modifies this`streams, this`openStreams, this`loop
      ensures State() == Handled(old(State()), Frame.Data(id, payload))
      ensures accepted ==
        if !(id in old(streams) && old(streams)[id].inTable && old(streams)[id].rxAlive) then Some(0)
        else if |old(streams)[id].channel| < BODY_QUEUE then Some(|payload|)
        else None
    {
      ghost var e := State();
      if !(id in streams && streams[id].inTable) {
        return Some(0);
      }
      var d := TrySend(id, Chunk.Data(payload));
      match d {
        case Waits =>
          loop := Delivering(id, Chunk.Data(payload));
          assert e.streams[id := e.streams[id]] == e.streams;
          accepted := None;
        case Refused =>
          CloseStream(id);
          accepted := Some(0);
        case Accepted =>
          loop := AfterDelivery(e.streams[id], Frame.Data(id, payload));
          accepted := Some(|payload|);
      }
    }

    /** Delivers a clean end of the body, or waits for room for it, and closes the stream. */
    method OnStreamEnd(id: nat)
      requires loop.Ready?
      modifies this`streams, this`openStreams, this`loop
      ensures State() == Handled(old(State()), Frame.End(id))
    {
      if id in streams && streams[id].inTable {
        streams := streams[id := streams[id].(endSeen := true)];
        Finish(id, Chunk.End);
      }
    }

    /** Delivers an abortive reset, or waits for room for it, and closes the stream. */
    method OnStreamReset(id: nat)
      requires loop.Ready?
      modifies this`streams, this`openStreams, this`loop
      ensures State() == Handled(old(State()), Frame.Reset(id))
    {
      if id in streams && streams[id].inTable {
        ghost var e := State();
        assert e.streams[id := e.streams[id]] == e.streams;
        Finish(id, Chunk.Reset);
      }
    }

    /** The last chunk of a stream, and the close after it. */
    method Finish(id: nat, chunk: Chunk)
      requires id in streams && streams[id].inTable && loop.Ready?
      modifies this`streams, this`openStreams, this`loop
      ensures
        var e, st := old(State()), old(streams)[id];
        State() == if HasRoom(st) then ClosedNow(e.(streams := e.streams[id := Delivered(st, chunk)]), id)
                   else e.(loop := Delivering(id, chunk))
    {
      var d := TrySend(id, chunk);
      if d.Waits? {
        loop := Delivering(id, chunk);
      } else {
        CloseStream(id);
      }
    }
  }
}
