/** The agent half of the stream protocol: the stream table behind its lock, one task per public
    request, and the read loop of the session. As in `Edge`, each function is one section between
    awaits. */
module Agent {
  import opened Wrappers
  import opened Frames
  import opened Flow

  /** `serve_stream`. */
  datatype Serve =
    | Requesting     // the local request is in flight
    | HeadReady      // about to queue the response head
    | Responding     // reading the local body
    | Reporting      // about to queue a Reset
    | Dropping       // about to call drop_stream
    | Finished

  datatype AgentStream = AgentStream(
    inTable: bool,           // the semaphore is closed when the entry goes
    bodyOpen: bool,          // false once close_request_body has swapped the sender
    permits: nat,            // send_credit
    serve: Serve,
    pump: Pump,              // send_payload
    body: Bytes,             // read from the local response so far
    sent: Bytes,             // put into Data frames so far
    channel: seq<Bytes>,     // the request body channel
    rxAlive: bool,           // the HTTP client still holds its end
    received: seq<Bytes>     // everything ever put into the channel
  )

  datatype AgentLoop =
    | Ready
    | Delivering(id: nat, payload: Bytes)    // holds the sender, waits for room
    | Discarding(id: nat, lost: Bytes)       // is about to call drop_stream
    | Crediting(id: nat, increment: nat)     // is about to queue a WindowUpdate
    | Stopped

  datatype Agent = Agent(streams: map<nat, AgentStream>, loop: AgentLoop, queueOpen: bool)

  datatype AgentLocal =
    | LocalFails | LocalAnswers | SendHead
    | ReadLocal(payload: Bytes) | LocalError | LocalEnd
    | TakeCredit | PumpStop | SendData
    | SendReset | DropStream
    | PullBody | DropBody

  datatype AgentAction =
    | Do(id: nat, step: AgentLocal)
    | LoopDeliver
    | LoopDrop
    | LoopCredit
    | StopLoop
    | Disconnect

  function Register(window: nat): AgentStream {
    AgentStream(true, true, window, Requesting, Idle, [], [], [], true, [])
  }

  function Init(): Agent {
    Agent(map[], Ready, true)
  }

  datatype AgentMove = AgentMove(st: AgentStream, out: seq<Frame>)

  /** The effect of a task's step on stream `i`, or None when it is not enabled. */
  function LocalMove(i: nat, queueOpen: bool, st: AgentStream, a: AgentLocal): Option<AgentMove> {
    match a
    case LocalFails =>
      if st.serve.Requesting? then Some(AgentMove(st.(serve := Reporting), [])) else None
    case LocalAnswers =>
      if st.serve.Requesting? then Some(AgentMove(st.(serve := HeadReady), [])) else None
    case SendHead =>
      if !st.serve.HeadReady? then None
      else if queueOpen then Some(AgentMove(st.(serve := Responding), [Frame.ResponseHead(i)]))
      else Some(AgentMove(st.(serve := Dropping), []))
    case ReadLocal(p) =>
      if !st.serve.Responding? || !st.pump.Idle? then None
      else if p == [] then Some(AgentMove(st, []))
      else Some(AgentMove(st.(pump := Sending(Cut(p)), body := st.body + p), []))
    case LocalError =>
      if st.serve.Responding? && st.pump.Idle?
      then Some(AgentMove(st.(serve := Reporting, pump := Pump.Stopped), [])) else None
    case LocalEnd =>
      if !st.serve.Responding? || !st.pump.Idle? then None
      else if queueOpen then Some(AgentMove(st.(serve := Dropping, pump := Ended), [Frame.End(i)]))
      else Some(AgentMove(st.(serve := Dropping, pump := Pump.Stopped), []))
    case TakeCredit =>
      if st.pump.Sending? && st.pump.chunks != [] && st.inTable && |st.pump.chunks[0]| <= st.permits
      then Some(AgentMove(st.(pump := Taken(st.pump.chunks), permits := st.permits - |st.pump.chunks[0]|), []))
      else None
    case PumpStop =>
      if st.pump.Sending? && !st.inTable
      then Some(AgentMove(st.(pump := Pump.Stopped, serve := Dropping), [])) else None
    case SendData =>
      if !st.pump.Taken? || st.pump.chunks == [] then None
      else if queueOpen then
        var c := st.pump.chunks[0];
        Some(AgentMove(st.(pump := AfterFrame(st.pump), sent := st.sent + c), [Frame.Data(i, c)]))
      else Some(AgentMove(st.(pump := Pump.Stopped, serve := Dropping), []))
    case SendReset =>
      if st.serve.Reporting?
      then Some(AgentMove(st.(serve := Dropping), if queueOpen then [Frame.Reset(i)] else [])) else None
    case DropStream =>
      if st.serve.Dropping? then Some(AgentMove(st.(serve := Serve.Finished, inTable := false), [])) else None
    case PullBody =>
      if st.rxAlive && st.channel != [] then Some(AgentMove(st.(channel := st.channel[1..]), [])) else None
    case DropBody =>
      if st.rxAlive then Some(AgentMove(st.(rxAlive := false, channel := []), [])) else None
  }

  datatype AgentLoopMove = AgentLoopMove(st: AgentStream, loop: AgentLoop, out: seq<Frame>)

  function LoopMove(queueOpen: bool, st: AgentStream, loop: AgentLoop, a: AgentAction): Option<AgentLoopMove> {
    match a
    case LoopDeliver =>
      if !loop.Delivering? then None
      else if !st.rxAlive then Some(AgentLoopMove(st, Discarding(loop.id, loop.payload), []))
      else if |st.channel| < BODY_QUEUE then
        Some(AgentLoopMove(st.(channel := st.channel + [loop.payload], received := st.received + [loop.payload]),
                           Crediting(loop.id, ToU32(|loop.payload|)), []))
      else None
    case LoopDrop =>
      if loop.Discarding? then Some(AgentLoopMove(st.(inTable := false), Ready, [])) else None
    case LoopCredit =>
      if loop.Crediting?
      then Some(AgentLoopMove(st, Ready, if queueOpen then [Frame.WindowUpdate(loop.id, loop.increment)] else []))
      else None
    case _ => None
  }

  /** A frame from the edge other than Open, for a stream the agent has heard of. After End the
      table holds a sender nobody listens to, so a send fails at once. */
  function Receive(st: AgentStream, f: Frame): (AgentStream, AgentLoop) {
    match f
    case Data(i, p) =>
      if !st.inTable then (st, Ready)
      else if st.bodyOpen then (st, Delivering(i, p))
      else (st, Discarding(i, p))
    case End(_) => if st.inTable then (st.(bodyOpen := false), Ready) else (st, Ready)
    case Reset(_) => (st.(inTable := false), Ready)
    case WindowUpdate(_, n) => if st.inTable then (st.(permits := st.permits + n), Ready) else (st, Ready)
    case ResponseHead(_) => (st, Ready)
    case Open(_, _) => (st, Ready)
  }

  function Put(g: Agent, i: nat, st: AgentStream): Agent {
    g.(streams := g.streams[i := st])
  }

  predicate HasId(loop: AgentLoop) {
    loop.Delivering? || loop.Discarding? || loop.Crediting?
  }

  function LoopStep(g: Agent, a: AgentAction): (Agent, seq<Frame>) {
    if !HasId(g.loop) || g.loop.id !in g.streams then (g, [])
    else (match LoopMove(g.queueOpen, g.streams[g.loop.id], g.loop, a)
          case None => (g, [])
          case Some(m) => (Put(g, g.loop.id, m.st).(loop := m.loop), m.out))
  }

  /** One step of the agent and the frames it queues. */
  function Step(g: Agent, a: AgentAction): (Agent, seq<Frame>) {
    match a
    case Do(i, step) =>
      if i !in g.streams then (g, [])
      else (match LocalMove(i, g.queueOpen, g.streams[i], step)
            case None => (g, [])
            case Some(m) => (Put(g, i, m.st), m.out))
    case LoopDeliver => LoopStep(g, a)
    case LoopDrop => LoopStep(g, a)
    case LoopCredit => LoopStep(g, a)
    case StopLoop => if g.loop.Ready? then (g.(loop := AgentLoop.Stopped), []) else (g, [])
    case Disconnect => (g.(queueOpen := false), [])
  }

  /** The read loop takes the next frame. Open registers the stream on the loop, before the task
      that serves it exists. */
  function Accept(g: Agent, f: Frame): Agent
    requires g.loop.Ready?
  {
    if f.Open? then Put(g, f.id, Register(f.window))
    else if f.id !in g.streams then g
    else
      var (st, loop) := Receive(g.streams[f.id], f);
      Put(g, f.id, st).(loop := loop)
  }
}
