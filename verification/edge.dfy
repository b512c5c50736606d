/** The edge half of the stream protocol: one agent session with its stream table, its stream
    counter, the tasks that serve public requests, and the read loop of the control plane.
    Every function is one atomic section of the program, between two awaits or two atomics; an
    action that is not enabled changes nothing. */
module Edge {
  import opened Wrappers
  import opened Frames
  import opened Flow

  const U64: nat := 0x1_0000_0000_0000_0000

  /** What travels to the public response body. */
  datatype Chunk = Data(bytes: Bytes) | End | Reset

  /** The task that opened the stream, `forward_local` and then the response body. */
  datatype Handler =
    | Allocated       // has an id, not yet in the table
    | Inserted        // in the table, not yet counted
    | Counted         // about to queue Open
    | OpenFailed      // the queue was closed
    | Waiting         // for the response head
    | HeadLost
    | TimedOut
    | TimedOutClosed
    | Serving         // the response body is alive
    | BodyDropped     // its channel is gone, the guard has not run
    | GuardClosed
    | Returning
    | Done
    | Cancelled       // dropped before there was a guard, and before it closed the stream

  /** What the public client has been answered: the agent's head and body, or an error page. */
  datatype Reply = NoReply | Streaming | TunnelNotFound | BadGateway | GatewayTimeout

  /** How far `close_stream` has come for this stream. */
  datatype Closer = Untouched | Removed | SemaphoreClosed | Finished

  datatype Abort = NoAbort | MustClose | MustReset

  datatype EdgeStream = EdgeStream(
    handler: Handler,
    announced: bool,         // Open was queued
    inTable: bool,
    closer: Closer,
    headSent: bool,          // head_tx was taken
    permits: nat,            // send_credit
    pump: Pump,              // the request body task
    abort: Abort,            // that task, after the client's body failed
    body: Bytes,             // read from the public client so far
    queued: Bytes,           // put into Data frames so far
    channel: seq<Chunk>,     // the body channel
    rxAlive: bool,
    handed: seq<Chunk>,      // everything ever put into the body channel
    endSeen: bool,           // the agent's End was looked up successfully
    reply: Reply
  )

  /** The control plane's read loop. */
  datatype EdgeLoop =
    | Ready
    | Delivering(id: nat, chunk: Chunk)     // holds the channel, waits for room
    | Discarding(id: nat, lost: Bytes)      // is about to call close_stream
    | Granting(id: nat, increment: nat)     // is about to queue a WindowUpdate
    | Teardown(ids: set<nat>)
    | Stopped

  datatype Edge = Edge(
    limit: nat,                  // max_concurrent_streams, 0 for none
    window: nat,                 // initial_window
    nextStreamId: nat,
    openStreams: nat,            // the u64 counter
    admitted: nat,               // tasks past the limit check without an id
    streams: map<nat, EdgeStream>,
    loop: EdgeLoop,
    queueOpen: bool              // the outbound queue has a receiver
  )

  /** Steps of the task that serves the request, and of whoever closes the stream. */
  datatype HandlerStep =
    | Insert | SendOpen | Cancel | TakeHead | LoseHead | TimeOut | HandlerClose | SendReset(fits: bool) | Return
    | DropBody | Pull | CloseSemaphore

  /** Steps of the task that uploads the request body. */
  datatype UploadStep =
    | ReadBody(payload: Bytes) | EndBody | FailBody | TakeCredit | PumpStop | SendData | PumpClose | PumpReset

  /** Steps of one stream that touch nothing shared. */
  datatype EdgeLocal = Handle(h: HandlerStep) | Upload(u: UploadStep)

  datatype EdgeAction =
    | Admit
    | Allocate
    | Do(id: nat, step: EdgeLocal)
    | Count(id: nat)
    | CountDown(id: nat)
    | LoopDeliver
    | LoopClose
    | LoopGrant
    | HangUp
    | TeardownClose(id: nat)
    | Disconnect

  function Fresh(window: nat): EdgeStream {
    EdgeStream(Allocated, false, false, Untouched, false, window, Idle, NoAbort, [], [], [], true, [], false, NoReply)
  }

  function Init(limit: nat, window: nat): Edge {
    Edge(limit, window, 1, 0, 0, map[], Ready, true)
  }

  /** Removing the entry decides which caller of `close_stream` does the rest. */
  function Close(st: EdgeStream): EdgeStream {
    if st.inTable then st.(inTable := false, closer := Removed) else st
  }

  predicate SemaphoreShut(st: EdgeStream) {
    st.closer.SemaphoreClosed? || st.closer.Finished?
  }

  datatype EdgeMove = EdgeMove(st: EdgeStream, out: seq<Frame>)

  /** The effect of a step on stream `i`, or None when it is not enabled. */
  function LocalMove(i: nat, window: nat, queueOpen: bool, st: EdgeStream, a: EdgeLocal): Option<EdgeMove> {
    match a
    case Handle(h) => HandlerMove(i, window, queueOpen, st, h)
    case Upload(u) => UploadMove(i, queueOpen, st, u)
  }

  function HandlerMove(i: nat, window: nat, queueOpen: bool, st: EdgeStream, h: HandlerStep): Option<EdgeMove> {
    match h
    case Insert =>
      if st.handler.Allocated? then Some(EdgeMove(st.(handler := Inserted, inTable := true), [])) else None
    case SendOpen =>
      if !st.handler.Counted? then None
      else if queueOpen then Some(EdgeMove(st.(handler := Waiting, announced := true), [Frame.Open(i, window)]))
      else Some(EdgeMove(st.(handler := OpenFailed), []))
    case Cancel =>
      if st.handler.Counted? || st.handler.Waiting?
      then Some(EdgeMove(st.(handler := Cancelled, rxAlive := false, channel := []), []))
      else if st.handler.TimedOutClosed?
      then Some(EdgeMove(st.(handler := Done, rxAlive := false, channel := []), [])) else None
    case TakeHead =>
      if st.handler.Waiting? && st.headSent then Some(EdgeMove(st.(handler := Serving, reply := Streaming), [])) else None
    case LoseHead =>
      if st.handler.Waiting? && !st.headSent && st.closer.Finished?
      then Some(EdgeMove(st.(handler := HeadLost), [])) else None
    case TimeOut =>
      if st.handler.Waiting? then Some(EdgeMove(st.(handler := TimedOut), [])) else None
    case HandlerClose =>
      (match st.handler
       case OpenFailed => Some(EdgeMove(Close(st).(handler := Returning, reply := TunnelNotFound), []))
       case HeadLost => Some(EdgeMove(Close(st).(handler := Returning, reply := BadGateway), []))
       case TimedOut => Some(EdgeMove(Close(st).(handler := TimedOutClosed), []))
       case BodyDropped => Some(EdgeMove(Close(st).(handler := GuardClosed), []))
       case _ => None)
    case SendReset(fits) =>
      if st.handler.TimedOutClosed? then
        Some(EdgeMove(st.(handler := Returning, reply := GatewayTimeout), if queueOpen then [Frame.Reset(i)] else []))
      else if st.handler.GuardClosed? then
        Some(EdgeMove(st.(handler := Done), if queueOpen && fits then [Frame.Reset(i)] else []))
      else None
    case Return =>
      if st.handler.Returning? then Some(EdgeMove(st.(handler := Done, rxAlive := false, channel := []), [])) else None
    case DropBody =>
      if st.handler.Serving?
      then Some(EdgeMove(st.(handler := BodyDropped, rxAlive := false, channel := []), [])) else None
    case Pull =>
      if st.handler.Serving? && st.channel != [] then Some(EdgeMove(st.(channel := st.channel[1..]), [])) else None
    case CloseSemaphore =>
      if st.closer.Removed? then Some(EdgeMove(st.(closer := Closer.SemaphoreClosed), [])) else None
  }

  function UploadMove(i: nat, queueOpen: bool, st: EdgeStream, u: UploadStep): Option<EdgeMove> {
    match u
    case ReadBody(p) =>
      if !st.announced || !st.pump.Idle? || p == [] then None
      else if st.inTable then Some(EdgeMove(st.(pump := Sending(Cut(p)), body := st.body + p), []))
      else Some(EdgeMove(st.(pump := Pump.Stopped, body := st.body + p), []))
    case EndBody =>
      if !st.announced || !st.pump.Idle? then None
      else if queueOpen then Some(EdgeMove(st.(pump := Ended), [Frame.End(i)]))
      else Some(EdgeMove(st.(pump := Pump.Stopped), []))
    case FailBody =>
      if !st.announced || !st.pump.Idle? then None
      else Some(EdgeMove(st.(pump := Pump.Stopped, abort := MustClose), []))
    case TakeCredit =>
      if st.pump.Sending? && st.pump.chunks != [] && !SemaphoreShut(st) && |st.pump.chunks[0]| <= st.permits
      then Some(EdgeMove(st.(pump := Taken(st.pump.chunks), permits := st.permits - |st.pump.chunks[0]|), []))
      else None
    case PumpStop =>
      if st.pump.Sending? && SemaphoreShut(st) then Some(EdgeMove(st.(pump := Pump.Stopped), [])) else None
    case SendData =>
      if !st.pump.Taken? || st.pump.chunks == [] then None
      else if queueOpen then
        var c := st.pump.chunks[0];
        Some(EdgeMove(st.(pump := AfterFrame(st.pump), queued := st.queued + c), [Frame.Data(i, c)]))
      else Some(EdgeMove(st.(pump := Pump.Stopped), []))
    case PumpClose =>
      if st.abort.MustClose? then Some(EdgeMove(Close(st).(abort := MustReset), [])) else None
    case PumpReset =>
      if st.abort.MustReset?
      then Some(EdgeMove(st.(abort := NoAbort), if queueOpen then [Frame.Reset(i)] else [])) else None
  }

  datatype EdgeLoopMove = EdgeLoopMove(st: EdgeStream, loop: EdgeLoop, out: seq<Frame>)

  /** The read loop's next step for the stream it is working on. */
  function LoopMove(queueOpen: bool, st: EdgeStream, loop: EdgeLoop, a: EdgeAction): Option<EdgeLoopMove> {
    match a
    case LoopDeliver =>
      if !loop.Delivering? then None
      else if !st.rxAlive then
        Some(EdgeLoopMove(st, Discarding(loop.id, if loop.chunk.Data? then loop.chunk.bytes else []), []))
      else if |st.channel| < BODY_QUEUE then
        Some(EdgeLoopMove(st.(channel := st.channel + [loop.chunk], handed := st.handed + [loop.chunk]),
                          if !loop.chunk.Data? then Discarding(loop.id, [])
                          else if |loop.chunk.bytes| > 0 then Granting(loop.id, ToU32(|loop.chunk.bytes|))
                          else Ready, []))
      else None
    case LoopClose =>
      if loop.Discarding? then Some(EdgeLoopMove(Close(st), Ready, [])) else None
    case LoopGrant =>
      if loop.Granting?
      then Some(EdgeLoopMove(st, Ready, if queueOpen then [Frame.WindowUpdate(loop.id, loop.increment)] else []))
      else None
    case _ => None
  }

  /** A frame from the agent, for the stream it names. */
  function Receive(st: EdgeStream, f: ClientFrame): (EdgeStream, EdgeLoop) {
    match f
    case Data(i, p) => if st.inTable then (st, Delivering(i, Chunk.Data(p))) else (st, Ready)
    case End(i) =>
      if st.inTable then (st.(endSeen := true), Delivering(i, Chunk.End)) else (st, Discarding(i, []))
    case Reset(i) => if st.inTable then (st, Delivering(i, Chunk.Reset)) else (st, Discarding(i, []))
    case WindowUpdate(_, n) => if st.inTable then (st.(permits := st.permits + n), Ready) else (st, Ready)
    case ResponseHead(_) => if st.inTable then (st.(headSent := true), Ready) else (st, Ready)
    case Open(_, _) => (st, Ready)
  }

  function At(e: Edge, i: nat): EdgeStream {
    if i in e.streams then e.streams[i] else Fresh(e.window)
  }

  predicate HasId(loop: EdgeLoop) {
    loop.Delivering? || loop.Discarding? || loop.Granting?
  }

  /** Writes a stream back; a stream nobody opened stays unknown. */
  function Put(e: Edge, i: nat, st: EdgeStream): Edge {
    if i in e.streams then e.(streams := e.streams[i := st]) else e
  }

  function TeardownOf(ids: set<nat>): EdgeLoop {
    if ids == {} then EdgeLoop.Stopped else Teardown(ids)
  }

  function Table(e: Edge): set<nat> {
    set i | i in e.streams && e.streams[i].inTable
  }

  /** One step of the edge and the frames it queues. */
  function Step(e: Edge, a: EdgeAction): (Edge, seq<Frame>) {
    match a
    case Admit =>
      if e.limit > 0 && e.openStreams >= e.limit then (e, []) else (e.(admitted := e.admitted + 1), [])
    case Allocate =>
      if e.admitted == 0 then (e, [])
      else (e.(admitted := e.admitted - 1, nextStreamId := e.nextStreamId + 1,
               streams := e.streams[e.nextStreamId := Fresh(e.window)]), [])
    case Do(i, step) =>
      if i !in e.streams then (e, [])
      else (match LocalMove(i, e.window, e.queueOpen, e.streams[i], step)
            case None => (e, [])
            case Some(m) => (Put(e, i, m.st), m.out))
    case Count(i) =>
      if i in e.streams && e.streams[i].handler.Inserted?
      then (Put(e, i, e.streams[i].(handler := Counted)).(openStreams := (e.openStreams + 1) % U64), [])
      else (e, [])
    case CountDown(i) =>
      if i in e.streams && e.streams[i].closer.SemaphoreClosed?
      then (Put(e, i, e.streams[i].(closer := Finished)).(openStreams := (e.openStreams + U64 - 1) % U64), [])
      else (e, [])
    case LoopDeliver => LoopStep(e, a)
    case LoopClose => LoopStep(e, a)
    case LoopGrant => LoopStep(e, a)
    case HangUp => if e.loop.Ready? then (e.(loop := TeardownOf(Table(e))), []) else (e, [])
    case TeardownClose(i) =>
      if e.loop.Teardown? && i in e.loop.ids then
        (Put(e, i, Close(At(e, i))).(loop := TeardownOf(e.loop.ids - {i})), [])
      else (e, [])
    case Disconnect => (e.(queueOpen := false), [])
  }

  function LoopStep(e: Edge, a: EdgeAction): (Edge, seq<Frame>) {
    if !HasId(e.loop) then (e, [])
    else (match LoopMove(e.queueOpen, At(e, e.loop.id), e.loop, a)
          case None => (e, [])
          case Some(m) => (Put(e, e.loop.id, m.st).(loop := m.loop), m.out))
  }

  /** The read loop takes the next frame. */
  function Accept(e: Edge, f: ClientFrame): Edge
    requires e.loop.Ready?
  {
    var (st, loop) := Receive(At(e, f.id), f);
    Put(e, f.id, st).(loop := loop)
  }
}
