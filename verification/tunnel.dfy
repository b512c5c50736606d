/** Edge and agent joined by two FIFOs. Every stream of the running system is seen through a
    `View`: its two halves, the loops as far as they work on it, and its part of the FIFOs. */
module Tunnel {
  import opened Wrappers
  import opened Frames
  import opened Flow
  import E = Edge
  import A = Agent
  import opened EdgeRuns

  datatype Sys = Sys(edge: E.Edge, agent: A.Agent, down: seq<Frame>, up: seq<Frame>)

  datatype Action = EdgeActs(a: E.EdgeAction) | AgentActs(b: A.AgentAction) | EdgeReads | AgentReads

  function Start(limit: nat, window: nat): Sys {
    Sys(E.Init(limit, window), A.Init(), [], [])
  }

  function Next(s: Sys, act: Action): Sys {
    match act
    case EdgeActs(a) =>
      var (e, out) := E.Step(s.edge, a);
      s.(edge := e, down := s.down + out)
    case AgentActs(b) =>
      var (g, out) := A.Step(s.agent, b);
      s.(agent := g, up := s.up + out)
    case EdgeReads =>
      if s.edge.loop.Ready? && s.up != [] && !s.up[0].Open?
      then s.(edge := E.Accept(s.edge, s.up[0]), up := s.up[1..]) else s
    case AgentReads =>
      if s.agent.loop.Ready? && s.down != []
      then s.(agent := A.Accept(s.agent, s.down[0]), down := s.down[1..]) else s
  }

  /** The state after a run; an action that is not enabled changes nothing, so the lists of
      actions are all interleavings of any number of streams. */
  function Exec(s: Sys, acts: seq<Action>): Sys
    decreases |acts|
  {
    if acts == [] then s else Exec(Next(s, acts[0]), acts[1..])
  }

  // ---- views -----------------------------------------------------------------------------

  datatype View = View(
    st: E.EdgeStream,
    ag: Option<A.AgentStream>,
    eloop: E.EdgeLoop,
    aloop: A.AgentLoop,
    down: seq<Frame>,
    up: seq<Frame>,
    eOpen: bool,
    aOpen: bool
  )

  function EdgeLoopAt(loop: E.EdgeLoop, i: nat): E.EdgeLoop {
    if E.HasId(loop) && loop.id == i then loop else E.Ready
  }

  function AgentLoopAt(loop: A.AgentLoop, i: nat): A.AgentLoop {
    if A.HasId(loop) && loop.id == i then loop else A.Ready
  }

  function AgentAt(g: A.Agent, i: nat): Option<A.AgentStream> {
    if i in g.streams then Some(g.streams[i]) else None
  }

  function ViewOf(s: Sys, i: nat): View {
    View(E.At(s.edge, i), AgentAt(s.agent, i), EdgeLoopAt(s.edge.loop, i), AgentLoopAt(s.agent.loop, i),
         Wire(s.down, i), Wire(s.up, i), s.edge.queueOpen, s.agent.queueOpen)
  }

  // ---- the two lanes of a view --------------------------------------------------------------

  function AgentHand(loop: A.AgentLoop): Bytes {
    if loop.Delivering? then loop.payload else if loop.Discarding? then loop.lost else []
  }

  function AgentOwes(loop: A.AgentLoop): nat {
    if loop.Crediting? then loop.increment else 0
  }

  function EdgeHand(loop: E.EdgeLoop): Bytes {
    if loop.Delivering? && loop.chunk.Data? then loop.chunk.bytes
    else if loop.Discarding? then loop.lost else []
  }

  function EdgeOwes(loop: E.EdgeLoop): nat {
    if loop.Granting? then loop.increment else 0
  }

  /** The bytes among the chunks handed to a public body. */
  function DataOf(handed: seq<E.Chunk>): Bytes {
    if handed == [] then []
    else (if handed[0].Data? then handed[0].bytes else []) + DataOf(handed[1..])
  }

  lemma {:induction false} DataOfAppend(handed: seq<E.Chunk>, c: E.Chunk)
    ensures DataOf(handed + [c]) == DataOf(handed) + (if c.Data? then c.bytes else [])
  {
    if handed == [] {
      assert handed + [c] == [c];
      assert [c][1..] == [];
    } else {
      assert (handed + [c])[1..] == handed[1..] + [c];
      DataOfAppend(handed[1..], c);
    }
  }

  /** Edge to agent. Before the agent has processed Open it counts as a receiver in waiting. */
  function UpLane(v: View): Lane {
    Lane(v.st.pump, v.st.body, v.st.queued, v.st.permits, v.st.closer.Untouched?,
         v.down, AgentHand(v.aloop), AgentOwes(v.aloop),
         v.ag.None? || v.ag.value.inTable,
         v.ag.Some? && !v.ag.value.bodyOpen,
         if v.ag.None? then [] else Flatten(v.ag.value.received),
         v.up, !v.eOpen || !v.aOpen)
  }

  /** Agent to edge. Before Open the agent's semaphore counts as full. */
  function DownLane(window: nat, v: View): Lane {
    var g := if v.ag.Some? then v.ag.value else A.Register(window);
    Lane(g.pump, g.body, g.sent, g.permits, g.inTable,
         v.up, EdgeHand(v.eloop), EdgeOwes(v.eloop),
         v.st.closer.Untouched?, v.st.endSeen, DataOf(v.st.handed),
         v.down, !v.eOpen || !v.aOpen)
  }

  // ---- invariant of a view --------------------------------------------------------------------

  /** Open comes first and once; before it, nothing about the stream exists anywhere but at the edge. */
  ghost predicate Linked(window: nat, i: nat, v: View) {
    && (!v.st.announced ==> v.ag.None? && v.down == [])
    && (v.st.announced && v.ag.None? ==> v.down != [] && v.down[0] == Frame.Open(i, window) && NoOpen(v.down[1..]))
    && (v.ag.Some? ==> NoOpen(v.down))
    && (v.ag.None? ==> v.up == [] && v.eloop.Ready? && v.aloop.Ready?)
    && NoOpen(v.up)
    && (forall k | 0 <= k < |v.down| :: v.down[k].id == i)
    && (forall k | 0 <= k < |v.up| :: v.up[k].id == i)
  }

  ghost predicate SmallChunks(handed: seq<E.Chunk>) {
    forall k | 0 <= k < |handed| && handed[k].Data? :: |handed[k].bytes| <= MAX_CHUNK
  }

  ghost predicate SmallFrames(received: seq<Bytes>) {
    forall k | 0 <= k < |received| :: |received[k]| <= MAX_CHUNK
  }

  ghost predicate AgentOk(g: A.AgentStream) {
    && |g.channel| <= BODY_QUEUE
    && |g.channel| <= |g.received| && g.channel == g.received[|g.received| - |g.channel|..]
    && SmallFrames(g.received)
    && (g.pump.Ended? ==> g.serve.Dropping? || g.serve.Finished?)
    && (g.pump.Sending? || g.pump.Taken? ==> g.serve.Responding?)
    && (g.serve.Finished? ==> !g.inTable)
  }

  ghost predicate ViewOk(window: nat, i: nat, v: View) {
    && Linked(window, i, v)
    && LaneInv(window, UpLane(v))
    && LaneInv(window, DownLane(window, v))
    && (v.ag.Some? ==> AgentOk(v.ag.value))
    && SmallChunks(v.st.handed)
  }
}
