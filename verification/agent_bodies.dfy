/** How request bodies end at the local service: with the client's body complete, or with their
    channel closed before that, which the local service cannot tell apart. */
module AgentBodies {
  import opened Wrappers
  import opened Frames
  import opened Flow
  import E = Edge
  import A = Agent
  import opened EdgeRuns
  import opened Tunnel
  import opened TunnelRuns
  import opened TunnelTheorems

  // ---- what a body is and how it is taken ---------------------------------------------------------

  /** The agent's read loop holds a sender of the body channel and a payload for it. */
  predicate Held(g: A.Agent, i: nat) {
    g.loop.Delivering? && g.loop.id == i
  }

  /** The body's channel has no sender left, and so the local service has seen the end of it. */
  predicate BodyClosed(g: A.Agent, i: nat) {
    i in g.streams && (!g.streams[i].inTable || !g.streams[i].bodyOpen) && !Held(g, i)
  }

  function Got(g: A.Agent, i: nat): Bytes
    requires i in g.streams
  {
    Flatten(g.streams[i].received)
  }

  /** The entry has gone with its body channel open. */
  predicate Taken(g: A.Agent, i: nat) {
    i in g.streams && !g.streams[i].inTable && g.streams[i].bodyOpen
  }

  /** The step takes it: a Reset arrives, a delivery has failed, or the task that serves the stream is
      through before the client is. */
  predicate Takes(s: Sys, act: Action, i: nat) {
    && i in s.agent.streams && s.agent.streams[i].inTable && s.agent.streams[i].bodyOpen
    && match act
       case AgentReads => s.agent.loop.Ready? && s.down != [] && s.down[0] == Frame.Reset(i)
       case AgentActs(LoopDrop) => s.agent.loop.Discarding? && s.agent.loop.id == i
       case AgentActs(Do(j, DropStream)) => j == i && s.agent.streams[i].serve.Dropping?
       case _ => false
  }

  predicate TakenIn(s: Sys, acts: seq<Action>, i: nat)
    decreases |acts|
  {
    acts != [] && (Takes(s, acts[0], i) || TakenIn(Next(s, acts[0]), acts[1..], i))
  }

  /** What a task's step leaves of the entry and its channel. */
  ghost predicate TaskLeaves(i: nat, queueOpen: bool, st: A.AgentStream, step: A.AgentLocal)
    requires A.LocalMove(i, queueOpen, st, step).Some?
  {
    var m := A.LocalMove(i, queueOpen, st, step).value.st;
    && m.received == st.received && m.bodyOpen == st.bodyOpen && (m.rxAlive ==> st.rxAlive)
    && (m.inTable <==> st.inTable && !step.DropStream?)
    && (step.DropStream? ==> st.serve.Dropping?)
  }

  lemma ServingLeaves(i: nat, queueOpen: bool, st: A.AgentStream, step: A.AgentLocal)
    requires A.LocalMove(i, queueOpen, st, step).Some?
    requires step.LocalFails? || step.LocalAnswers? || step.SendHead? || step.ReadLocal? || step.LocalError? || step.LocalEnd?
    ensures TaskLeaves(i, queueOpen, st, step)
  {
  }

  lemma PumpLeaves(i: nat, queueOpen: bool, st: A.AgentStream, step: A.AgentLocal)
    requires A.LocalMove(i, queueOpen, st, step).Some?
    requires step.TakeCredit? || step.PumpStop? || step.SendData? || step.SendReset? || step.DropStream? || step.PullBody? || step.DropBody?
    ensures TaskLeaves(i, queueOpen, st, step)
  {
  }

  lemma TaskTakes(g: A.Agent, j: nat, step: A.AgentLocal, i: nat)
    requires i in g.streams
    ensures
      var g' := A.Step(g, A.Do(j, step)).0;
      && i in g'.streams && g'.loop == g.loop
      && (g'.streams[i].inTable <==> g.streams[i].inTable && !(j == i && step.DropStream? && g.streams[i].serve.Dropping?))
      && g'.streams[i].received == g.streams[i].received && g'.streams[i].bodyOpen == g.streams[i].bodyOpen
      && (g'.streams[i].rxAlive ==> g.streams[i].rxAlive)
  {
    if j == i && A.LocalMove(i, g.queueOpen, g.streams[i], step).Some? {
      if step.LocalFails? || step.LocalAnswers? || step.SendHead? || step.ReadLocal? || step.LocalError? || step.LocalEnd? {
        ServingLeaves(i, g.queueOpen, g.streams[i], step);
      } else {
        PumpLeaves(i, g.queueOpen, g.streams[i], step);
      }
    }
  }

  lemma LoopTakes(g: A.Agent, b: A.AgentAction, i: nat)
    requires i in g.streams && !b.Do?
    ensures
      var g' := A.Step(g, b).0;
      && i in g'.streams && g'.streams[i].bodyOpen == g.streams[i].bodyOpen && g'.streams[i].rxAlive == g.streams[i].rxAlive
      && (g'.streams[i].inTable <==> g.streams[i].inTable && !(b.LoopDrop? && g.loop.Discarding? && g.loop.id == i))
  {
  }

  lemma ReadTakes(s: Sys, i: nat)
    requires SysInv(s) && i in s.agent.streams && s.agent.loop.Ready? && s.down != []
    ensures
      var g, f, g' := s.agent, s.down[0], A.Accept(s.agent, s.down[0]);
      && i in g'.streams && g'.streams[i].received == g.streams[i].received && g'.streams[i].rxAlive == g.streams[i].rxAlive
      && (g'.streams[i].inTable <==> g.streams[i].inTable && f != Frame.Reset(i))
      && (g'.streams[i].bodyOpen <==> g.streams[i].bodyOpen && !(f.End? && f.id == i && g.streams[i].inTable))
  {
    if s.down[0].Open? {
      NextOpenIsNew(s);
    } else {
      DownFrameIsKnown(s);
    }
  }

  lemma NextTakes(s: Sys, act: Action, i: nat)
    requires SysInv(s)
    ensures Taken(Next(s, act).agent, i) <==> Taken(s.agent, i) || Takes(s, act, i)
    ensures i in s.agent.streams ==> i in Next(s, act).agent.streams
    ensures i in s.agent.streams && Next(s, act).agent.streams[i].rxAlive ==> s.agent.streams[i].rxAlive
  {
    if i in s.agent.streams {
      match act
      case EdgeActs(_) =>
      case EdgeReads =>
      case AgentActs(b) =>
        if b.Do? {
          TaskTakes(s.agent, b.id, b.step, i);
        } else {
          LoopTakes(s.agent, b, i);
        }
      case AgentReads =>
        if s.agent.loop.Ready? && s.down != [] {
          ReadTakes(s, i);
        }
    } else if i in Next(s, act).agent.streams {
      FreshIsOpen(s, act, i);
    }
  }

  lemma FreshIsOpen(s: Sys, act: Action, i: nat)
    requires i !in s.agent.streams && i in Next(s, act).agent.streams
    ensures Next(s, act).agent.streams[i].inTable && Next(s, act).agent.streams[i].bodyOpen
    ensures Next(s, act).agent.streams[i].received == [] && Next(s, act).agent.loop.Ready?
  {
  }

  lemma {:induction false} ExecTakes(s: Sys, acts: seq<Action>, i: nat)
    requires SysInv(s)
    ensures Taken(Exec(s, acts).agent, i) <==> Taken(s.agent, i) || TakenIn(s, acts, i)
    ensures i in s.agent.streams ==> i in Exec(s, acts).agent.streams
    ensures i in s.agent.streams && Exec(s, acts).agent.streams[i].rxAlive ==> s.agent.streams[i].rxAlive
    decreases |acts|
  {
    if acts != [] {
      NextTakes(s, acts[0], i);
      NextKeeps(s, acts[0]);
      ExecTakes(Next(s, acts[0]), acts[1..], i);
    }
  }

  // ---- what the edge queues for a stream -----------------------------------------------------------

  /** The payload that an output of at most one frame carries for the stream. */
  function Sent(out: seq<Frame>, i: nat): Bytes {
    if |out| == 1 && out[0].Data? && out[0].id == i then out[0].payload else []
  }

  lemma SentArrives(fifo: seq<Frame>, out: seq<Frame>, i: nat)
    requires |out| <= 1
    ensures Payload(Wire(fifo + out, i)) == Payload(Wire(fifo, i)) + Sent(out, i)
  {
    WireSent(fifo, out, i);
    if out != [] && out[0].id == i {
      assert out == [out[0]];
      PayloadAppend(Wire(fifo, i), out[0]);
    } else {
      assert Wire(fifo, i) + [] == Wire(fifo, i);
      assert Payload(Wire(fifo, i)) + [] == Payload(Wire(fifo, i));
    }
  }

  /** The step has the upload task read from the client. */
  function Fetched(e: E.Edge, a: E.EdgeAction, i: nat): Bytes {
    if a.Do? && a.id == i && i in e.streams && a.step.Upload? && a.step.u.ReadBody?
      && E.UploadMove(i, e.queueOpen, e.streams[i], a.step.u).Some?
    then a.step.u.payload else []
  }

  ghost predicate HandlerSilent(i: nat, window: nat, queueOpen: bool, st: E.EdgeStream, h: E.HandlerStep)
    requires E.HandlerMove(i, window, queueOpen, st, h).Some?
  {
    var m := E.HandlerMove(i, window, queueOpen, st, h).value;
    && m.st.queued == st.queued && m.st.body == st.body
    && |m.out| <= 1 && (m.out != [] ==> !m.out[0].Data?)
  }

  lemma HandlerOpens(i: nat, window: nat, queueOpen: bool, st: E.EdgeStream, h: E.HandlerStep)
    requires E.HandlerMove(i, window, queueOpen, st, h).Some? && Opens(h)
    ensures HandlerSilent(i, window, queueOpen, st, h)
  {
  }

  lemma HandlerAwaits(i: nat, window: nat, queueOpen: bool, st: E.EdgeStream, h: E.HandlerStep)
    requires E.HandlerMove(i, window, queueOpen, st, h).Some? && (Awaits(h) || Consumes(h))
    ensures HandlerSilent(i, window, queueOpen, st, h)
  {
  }

  lemma HandlerEnds(i: nat, window: nat, queueOpen: bool, st: E.EdgeStream, h: E.HandlerStep)
    requires E.HandlerMove(i, window, queueOpen, st, h).Some? && !Opens(h) && !Awaits(h) && !Consumes(h)
    ensures HandlerSilent(i, window, queueOpen, st, h)
  {
  }

  lemma HandlerSends(i: nat, window: nat, queueOpen: bool, st: E.EdgeStream, h: E.HandlerStep)
    requires E.HandlerMove(i, window, queueOpen, st, h).Some?
    ensures HandlerSilent(i, window, queueOpen, st, h)
  {
    if Opens(h) {
      HandlerOpens(i, window, queueOpen, st, h);
    } else if Awaits(h) || Consumes(h) {
      HandlerAwaits(i, window, queueOpen, st, h);
    } else {
      HandlerEnds(i, window, queueOpen, st, h);
    }
  }

  lemma UploadSends(i: nat, queueOpen: bool, st: E.EdgeStream, u: E.UploadStep)
    requires E.UploadMove(i, queueOpen, st, u).Some?
    ensures
      var m := E.UploadMove(i, queueOpen, st, u).value;
      && |m.out| <= 1 && (m.out != [] ==> m.out[0].id == i)
      && m.st.queued == st.queued + Sent(m.out, i)
      && m.st.body == st.body + (if u.ReadBody? then u.payload else [])
  {
  }

  /** What a step of the edge does to what has been read and queued of a stream. */
  ghost predicate Sends(e: E.Edge, a: E.EdgeAction, i: nat) {
    var (e', out) := E.Step(e, a);
    && |out| <= 1
    && E.At(e', i).queued == E.At(e, i).queued + Sent(out, i)
    && E.At(e', i).body == E.At(e, i).body + Fetched(e, a, i)
  }

  lemma DoSends(e: E.Edge, j: nat, step: E.EdgeLocal, i: nat)
    ensures Sends(e, E.Do(j, step), i)
  {
    if j in e.streams && E.LocalMove(j, e.window, e.queueOpen, e.streams[j], step).Some? {
      match step
      case Handle(h) => HandlerSends(j, e.window, e.queueOpen, e.streams[j], h);
      case Upload(u) => UploadSends(j, e.queueOpen, e.streams[j], u);
    }
  }

  lemma LoopSends(e: E.Edge, a: E.EdgeAction, i: nat)
    requires a.LoopDeliver? || a.LoopClose? || a.LoopGrant?
    ensures Sends(e, a, i)
  {
  }

  lemma SharedSends(e: E.Edge, a: E.EdgeAction, i: nat)
    requires !a.Do? && !a.LoopDeliver? && !a.LoopClose? && !a.LoopGrant?
    requires EdgeInv(e)
    ensures Sends(e, a, i)
  {
  }

  lemma StepSends(e: E.Edge, a: E.EdgeAction, i: nat)
    requires EdgeInv(e)
    ensures Sends(e, a, i)
  {
    match a
    case Do(j, step) => DoSends(e, j, step, i);
    case LoopDeliver => LoopSends(e, a, i);
    case LoopClose => LoopSends(e, a, i);
    case LoopGrant => LoopSends(e, a, i);
    case _ => SharedSends(e, a, i);
  }

  // ---- nothing is lost while somebody listens --------------------------------------------------------

  /** Bytes on the agent's hands and in the FIFO. */
  function Coming(s: Sys, i: nat): Bytes {
    AgentHand(AgentLoopAt(s.agent.loop, i)) + Payload(Wire(s.down, i))
  }

  /** The channel is open, and the local service listens. */
  predicate Listened(g: A.Agent, i: nat) {
    && i in g.streams && g.streams[i].bodyOpen && g.streams[i].rxAlive
    && (g.streams[i].inTable || Held(g, i))
  }

  /** Up to the moment it is closed a body lacks nothing but what is coming, and the loop does not lose
      a payload for it. */
  ghost predicate Gapless(s: Sys, i: nat) {
    && (Listened(s.agent, i) ==> Got(s.agent, i) + Coming(s, i) == E.At(s.edge, i).queued)
    && (s.agent.loop.Discarding? && s.agent.loop.id == i && i in s.agent.streams && s.agent.streams[i].rxAlive ==>
          !s.agent.streams[i].bodyOpen)
  }

  lemma ListedIsGapless(s: Sys, i: nat)
    requires SysInv(s) && i in s.agent.streams && s.agent.streams[i].inTable && s.agent.streams[i].bodyOpen
    ensures Got(s.agent, i) + Coming(s, i) == E.At(s.edge, i).queued
  {
    assert ViewOk(s.edge.window, i, ViewOf(s, i));
    var l := UpLane(ViewOf(s, i));
    assert l.delivered + (l.inHand + Payload(l.wire)) == l.delivered + l.inHand + Payload(l.wire);
  }

  lemma SumGrows(got: Bytes, hand: Bytes, wire: Bytes, sent: Bytes, queued: Bytes)
    requires got + (hand + wire) == queued
    ensures got + (hand + (wire + sent)) == queued + sent
  {
    assert got + (hand + (wire + sent)) == got + (hand + wire) + sent;
  }

  lemma EdgeSends(s: Sys, a: E.EdgeAction, i: nat)
    requires SysInv(s)
    ensures
      var s' := Next(s, EdgeActs(a));
      var sent := Sent(E.Step(s.edge, a).1, i);
      && s'.agent == s.agent
      && Payload(Wire(s'.down, i)) == Payload(Wire(s.down, i)) + sent
      && E.At(s'.edge, i).queued == E.At(s.edge, i).queued + sent
      && E.At(s'.edge, i).body == E.At(s.edge, i).body + Fetched(s.edge, a, i)
  {
    StepSends(s.edge, a, i);
    SentArrives(s.down, E.Step(s.edge, a).1, i);
  }

  lemma EdgeKeepsGapless(s: Sys, a: E.EdgeAction, i: nat)
    requires SysInv(s) && Gapless(s, i)
    ensures Gapless(Next(s, EdgeActs(a)), i)
  {
    EdgeSends(s, a, i);
    if Listened(s.agent, i) {
      SumGrows(Got(s.agent, i), AgentHand(AgentLoopAt(s.agent.loop, i)), Payload(Wire(s.down, i)),
               Sent(E.Step(s.edge, a).1, i), E.At(s.edge, i).queued);
    }
  }

  lemma EdgeReadSends(s: Sys, i: nat)
    ensures
      var s' := Next(s, EdgeReads);
      s'.agent == s.agent && s'.down == s.down
      && E.At(s'.edge, i).queued == E.At(s.edge, i).queued && E.At(s'.edge, i).body == E.At(s.edge, i).body
  {
  }

  /** The loop discards no payload of a body that somebody listens to. */
  lemma TaskKeepsGapless(s: Sys, j: nat, step: A.AgentLocal, i: nat)
    requires SysInv(s) && Gapless(s, i) && i in s.agent.streams
    ensures Gapless(Next(s, AgentActs(A.Do(j, step))), i)
  {
    TaskTakes(s.agent, j, step, i);
    assert Next(s, AgentActs(A.Do(j, step))).down == s.down;
  }

  lemma LoopKeepsGapless(s: Sys, b: A.AgentAction, i: nat)
    requires SysInv(s) && Gapless(s, i) && i in s.agent.streams && !b.Do?
    ensures Gapless(Next(s, AgentActs(b)), i)
  {
    var s' := Next(s, AgentActs(b));
    NextKeeps(s, AgentActs(b));
    LoopTakes(s.agent, b, i);
    if Listened(s'.agent, i) && s'.agent.streams[i].inTable {
      ListedIsGapless(s', i);
    }
    LoopLoses(s.agent, b, i);
  }

  lemma LoopLoses(g: A.Agent, b: A.AgentAction, i: nat)
    requires i in g.streams && !b.Do?
    ensures
      var g' := A.Step(g, b).0;
      && i in g'.streams
      && (Held(g', i) ==> g' == g || (g'.streams == g.streams && g'.loop == g.loop))
      && (g'.loop.Discarding? && g'.loop.id == i && g'.streams[i].rxAlive ==> g.loop == g'.loop)
  {
  }

  lemma ReadKeepsGapless(s: Sys, i: nat)
    requires SysInv(s) && Gapless(s, i) && i in s.agent.streams && s.agent.loop.Ready? && s.down != []
    ensures Gapless(Next(s, AgentReads), i)
  {
    var s' := Next(s, AgentReads);
    NextKeeps(s, AgentReads);
    ReadTakes(s, i);
    ReadLoses(s, i);
    if Listened(s'.agent, i) {
      ListedIsGapless(s', i);
    }
  }

  lemma ReadLoses(s: Sys, i: nat)
    requires SysInv(s) && i in s.agent.streams && s.agent.loop.Ready? && s.down != []
    ensures
      var g' := A.Accept(s.agent, s.down[0]);
      && i in g'.streams
      && (Held(g', i) ==> g'.streams[i].inTable && g'.streams[i].bodyOpen)
      && (g'.loop.Discarding? && g'.loop.id == i ==> !g'.streams[i].bodyOpen)
  {
    if s.down[0].Open? {
      NextOpenIsNew(s);
    } else {
      DownFrameIsKnown(s);
    }
  }

  lemma FreshIsGapless(s: Sys, act: Action, i: nat)
    requires SysInv(s) && i !in s.agent.streams
    ensures Gapless(Next(s, act), i)
  {
    NextKeeps(s, act);
    if i in Next(s, act).agent.streams {
      FreshIsOpen(s, act, i);
      ListedIsGapless(Next(s, act), i);
    }
  }

  lemma NextGapless(s: Sys, act: Action, i: nat)
    requires SysInv(s) && Gapless(s, i)
    ensures Gapless(Next(s, act), i)
  {
    if i !in s.agent.streams {
      FreshIsGapless(s, act, i);
    } else {
      match act
      case EdgeActs(a) => EdgeKeepsGapless(s, a, i);
      case EdgeReads => EdgeReadSends(s, i);
      case AgentActs(b) =>
        if b.Do? {
          TaskKeepsGapless(s, b.id, b.step, i);
        } else {
          LoopKeepsGapless(s, b, i);
        }
      case AgentReads =>
        if s.agent.loop.Ready? && s.down != [] {
          ReadKeepsGapless(s, i);
        }
    }
  }

  // ---- closed bodies that lack something ---------------------------------------------------------------

  /** The body has ended for the local service and lacks bytes that were read from the client. */
  predicate Short(s: Sys, i: nat) {
    BodyClosed(s.agent, i) && Got(s.agent, i) != E.At(s.edge, i).body
  }

  /** The step closes the body while bytes of it are still coming, or are still at the edge; or it reads
      more from the client for a body that is closed. */
  predicate Loses(s: Sys, act: Action, i: nat) {
    var s' := Next(s, act);
    || (!BodyClosed(s.agent, i) && BodyClosed(s'.agent, i)
        && (Payload(Wire(s'.down, i)) != [] || E.At(s'.edge, i).queued != E.At(s'.edge, i).body))
    || (BodyClosed(s.agent, i) && act.EdgeActs? && Fetched(s.edge, act.a, i) != [])
  }

  predicate LosesIn(s: Sys, acts: seq<Action>, i: nat)
    decreases |acts|
  {
    acts != [] && (Loses(s, acts[0], i) || LosesIn(Next(s, acts[0]), acts[1..], i))
  }

  /** The body is always a prefix of what was queued, and that of what was read. */
  lemma BodyIsPrefix(s: Sys, i: nat)
    requires SysInv(s) && i in s.agent.streams
    ensures Got(s.agent, i) <= E.At(s.edge, i).queued <= E.At(s.edge, i).body
    ensures !s.agent.streams[i].bodyOpen ==>
      E.At(s.edge, i).pump.Ended? && Got(s.agent, i) == E.At(s.edge, i).body && Payload(Wire(s.down, i)) == []
  {
    assert ViewOk(s.edge.window, i, ViewOf(s, i));
    var l := UpLane(ViewOf(s, i));
    PrefixOfSum(l.delivered, l.inHand, l.queued);
    if l.endSeen {
      NoDataNoPayload(l.wire);
    }
  }

  /** A closed body stays closed and gets nothing more. */
  lemma ClosedStays(s: Sys, act: Action, i: nat)
    requires SysInv(s) && BodyClosed(s.agent, i)
    ensures BodyClosed(Next(s, act).agent, i) && Got(Next(s, act).agent, i) == Got(s.agent, i)
  {
    match act
    case EdgeActs(_) =>
    case EdgeReads =>
    case AgentActs(b) =>
      if b.Do? {
        TaskTakes(s.agent, b.id, b.step, i);
      } else {
        LoopTakes(s.agent, b, i);
        LoopLeavesClosed(s.agent, b, i);
      }
    case AgentReads =>
      if s.agent.loop.Ready? && s.down != [] {
        ReadTakes(s, i);
        ReadLoses(s, i);
      }
  }

  lemma LoopLeavesClosed(g: A.Agent, b: A.AgentAction, i: nat)
    requires i in g.streams && !b.Do? && !Held(g, i)
    ensures
      var g' := A.Step(g, b).0;
      i in g'.streams && g'.streams[i].received == g.streams[i].received && !Held(g', i)
  {
  }

  lemma ClosedNext(s: Sys, act: Action, i: nat)
    requires SysInv(s) && BodyClosed(s.agent, i)
    ensures Short(Next(s, act), i) <==> Short(s, i) || Loses(s, act, i)
  {
    ClosedStays(s, act, i);
    BodyIsPrefix(s, i);
    match act
    case EdgeActs(a) => EdgeSends(s, a, i);
    case EdgeReads => EdgeReadSends(s, i);
    case _ =>
  }

  /** When the channel of a body that is listened to closes, it holds all that was queued but what is
      still in the FIFO. */
  lemma ClosingHolds(s: Sys, act: Action, i: nat)
    requires SysInv(s) && Gapless(s, i) && !BodyClosed(s.agent, i)
    requires BodyClosed(Next(s, act).agent, i) && Next(s, act).agent.streams[i].rxAlive
    ensures
      var s' := Next(s, act);
      Got(s'.agent, i) + Payload(Wire(s'.down, i)) == E.At(s'.edge, i).queued
  {
    var s' := Next(s, act);
    NextTakes(s, act, i);
    NextKeeps(s, act);
    if i !in s.agent.streams {
      FreshIsOpen(s, act, i);
    } else if !s'.agent.streams[i].bodyOpen {
      EndedHolds(s', i);
    } else {
      match act
      case EdgeActs(_) =>
      case EdgeReads =>
      case AgentActs(b) =>
        if b.Do? {
          TaskCloses(s, b.id, b.step, i);
        } else {
          LoopCloses(s, b, i);
        }
      case AgentReads => ResetCloses(s, i);
    }
  }

  lemma EndedHolds(s: Sys, i: nat)
    requires SysInv(s) && i in s.agent.streams && !s.agent.streams[i].bodyOpen
    ensures Got(s.agent, i) + Payload(Wire(s.down, i)) == E.At(s.edge, i).queued
  {
    BodyIsPrefix(s, i);
    assert Got(s.agent, i) + [] == Got(s.agent, i);
  }

  lemma TaskCloses(s: Sys, j: nat, step: A.AgentLocal, i: nat)
    requires Gapless(s, i) && i in s.agent.streams && !BodyClosed(s.agent, i)
    requires
      var s' := Next(s, AgentActs(A.Do(j, step)));
      BodyClosed(s'.agent, i) && s'.agent.streams[i].rxAlive && s'.agent.streams[i].bodyOpen
    ensures
      var s' := Next(s, AgentActs(A.Do(j, step)));
      Got(s'.agent, i) + Payload(Wire(s'.down, i)) == E.At(s'.edge, i).queued
  {
    TaskTakes(s.agent, j, step, i);
    assert [] + Payload(Wire(s.down, i)) == Payload(Wire(s.down, i));
  }

  lemma LoopDelivers(g: A.Agent, b: A.AgentAction, i: nat)
    requires i in g.streams && !b.Do? && g.streams[i].rxAlive && g.streams[i].bodyOpen
    requires !BodyClosed(g, i) && BodyClosed(A.Step(g, b).0, i)
    ensures
      var g' := A.Step(g, b).0;
      && i in g'.streams
      && ((Held(g, i) && g'.streams[i].received == g.streams[i].received + [g.loop.payload])
          || (g.loop.Discarding? && g.loop.id == i))
  {
  }

  /** The last payload of a body whose entry has gone already. */
  lemma LastPayload(g: A.Agent, b: A.AgentAction, i: nat)
    requires i in g.streams && !b.Do? && g.streams[i].rxAlive && g.streams[i].bodyOpen
    requires !BodyClosed(g, i) && BodyClosed(A.Step(g, b).0, i) && !(g.loop.Discarding? && g.loop.id == i)
    ensures
      var g' := A.Step(g, b).0;
      i in g'.streams && Held(g, i) && Got(g', i) == Got(g, i) + g.loop.payload
  {
    LoopDelivers(g, b, i);
    FlattenAppend(g.streams[i].received, g.loop.payload);
  }

  lemma LoopElsewhere(s: Sys, b: A.AgentAction)
    ensures
      var s' := Next(s, AgentActs(b));
      s'.edge == s.edge && s'.down == s.down && s'.agent == A.Step(s.agent, b).0
  {
  }

  lemma Regroup(a: Bytes, b: Bytes, c: Bytes)
    ensures a + (b + c) == a + b + c && [] + c == c
  {
  }

  lemma LoopCloses(s: Sys, b: A.AgentAction, i: nat)
    requires Gapless(s, i) && i in s.agent.streams && !BodyClosed(s.agent, i) && !b.Do?
    requires
      var s' := Next(s, AgentActs(b));
      BodyClosed(s'.agent, i) && s'.agent.streams[i].rxAlive && s'.agent.streams[i].bodyOpen
    ensures
      var s' := Next(s, AgentActs(b));
      Got(s'.agent, i) + Payload(Wire(s'.down, i)) == E.At(s'.edge, i).queued
  {
    LoopElsewhere(s, b);
    LoopTakes(s.agent, b, i);
    LastPayload(s.agent, b, i);
    Regroup(Got(s.agent, i), s.agent.loop.payload, Payload(Wire(s.down, i)));
  }

  /** Neither a Reset nor anything else but Data takes payload off the FIFO. */
  lemma OtherTaken(fifo: seq<Frame>, i: nat)
    requires fifo != [] && !(fifo[0].Data? && fifo[0].id == i)
    ensures Payload(Wire(fifo[1..], i)) == Payload(Wire(fifo, i))
  {
    WireTaken(fifo, i);
    if fifo[0].id == i {
      Regroup([], [], Payload(Wire(fifo, i)[1..]));
    }
  }

  lemma ResetCloses(s: Sys, i: nat)
    requires SysInv(s) && Gapless(s, i) && i in s.agent.streams && !BodyClosed(s.agent, i)
    requires
      var s' := Next(s, AgentReads);
      BodyClosed(s'.agent, i) && s'.agent.streams[i].rxAlive && s'.agent.streams[i].bodyOpen
    ensures
      var s' := Next(s, AgentReads);
      Got(s'.agent, i) + Payload(Wire(s'.down, i)) == E.At(s'.edge, i).queued
  {
    if s.agent.loop.Ready? && s.down != [] {
      ReadTakes(s, i);
      ResetArrives(s, i);
    }
  }

  lemma ResetArrives(s: Sys, i: nat)
    requires Gapless(s, i) && Listened(s.agent, i) && s.agent.loop.Ready? && s.down != [] && s.down[0] == Frame.Reset(i)
    ensures Got(s.agent, i) + Payload(Wire(s.down[1..], i)) == E.At(s.edge, i).queued
  {
    OtherTaken(s.down, i);
    Regroup([], [], Payload(Wire(s.down, i)));
  }

  lemma NextShort(s: Sys, act: Action, i: nat)
    requires SysInv(s) && Gapless(s, i)
    requires i in Next(s, act).agent.streams ==> Next(s, act).agent.streams[i].rxAlive
    ensures Short(Next(s, act), i) <==> Short(s, i) || Loses(s, act, i)
  {
    if BodyClosed(s.agent, i) {
      ClosedNext(s, act, i);
    } else if BodyClosed(Next(s, act).agent, i) {
      ClosingHolds(s, act, i);
      NextKeeps(s, act);
      BodyIsPrefix(Next(s, act), i);
    }
  }

  lemma {:induction false} ExecShort(s: Sys, acts: seq<Action>, i: nat)
    requires SysInv(s) && Gapless(s, i)
    requires i in Exec(s, acts).agent.streams ==> Exec(s, acts).agent.streams[i].rxAlive
    ensures Short(Exec(s, acts), i) <==> Short(s, i) || LosesIn(s, acts, i)
    decreases |acts|
  {
    if acts != [] {
      var s1 := Next(s, acts[0]);
      NextKeeps(s, acts[0]);
      NextGapless(s, acts[0], i);
      ExecTakes(s1, acts[1..], i);
      NextShort(s, acts[0], i);
      ExecShort(s1, acts[1..], i);
    }
  }

  // ---- the theorem -------------------------------------------------------------------------------------

  /** In every run: a request body that has ended at the local service was never completed by an End if
      and only if some step took its stream with the channel open; otherwise it is the whole body of a
      client that came to its end. And while the local service listens, it holds all that was ever read
      from the client if and only if nothing was lost: nothing was still on the way when it was closed,
      and nothing has been read since. */
  lemma RequestBodiesCutShort(limit: nat, window: nat, acts: seq<Action>, i: nat)
    ensures
      var s := Reached(limit, window, acts);
      BodyClosed(s.agent, i) ==>
        var (g, st) := (s.agent.streams[i], E.At(s.edge, i));
        && (g.bodyOpen <==> TakenIn(Start(limit, window), acts, i))
        && (!g.bodyOpen ==> st.pump.Ended? && Got(s.agent, i) == st.body)
        && (g.rxAlive ==> (Got(s.agent, i) == st.body <==> !LosesIn(Start(limit, window), acts, i)))
  {
    var s := Reached(limit, window, acts);
    StartOk(limit, window);
    ExecKeeps(Start(limit, window), acts);
    ExecTakes(Start(limit, window), acts, i);
    if BodyClosed(s.agent, i) {
      BodyIsPrefix(s, i);
      if s.agent.streams[i].rxAlive {
        ExecShort(Start(limit, window), acts, i);
      }
    }
  }

  lemma {:induction false} ExecGapless(s: Sys, acts: seq<Action>, i: nat)
    requires SysInv(s) && Gapless(s, i)
    ensures Gapless(Exec(s, acts), i)
    decreases |acts|
  {
    if acts != [] {
      NextKeeps(s, acts[0]);
      NextGapless(s, acts[0], i);
      ExecGapless(Next(s, acts[0]), acts[1..], i);
    }
  }

  /** A body that is listened to is only ever taken by a Reset of the edge or by the serving task, when
      the response is through before the request; never by a failed delivery. */
  lemma TakenByResetOrTask(limit: nat, window: nat, acts: seq<Action>, act: Action, i: nat)
    ensures
      var s := Reached(limit, window, acts);
      Takes(s, act, i) && s.agent.streams[i].rxAlive ==>
        || (act == AgentReads && s.down[0] == Frame.Reset(i))
        || (act == AgentActs(A.Do(i, A.DropStream)) && s.agent.streams[i].serve.Dropping?)
  {
    StartOk(limit, window);
    ExecGapless(Start(limit, window), acts, i);
  }

  // ---- one such body -----------------------------------------------------------------------------------

  /** The client's body has failed and the edge has closed the stream, with its Reset on the way. */
  function Failed(window: nat): Sys {
    var s := Joined(window);
    var st := s.edge.streams[1].(pump := Pump.Stopped, inTable := false, closer := E.Removed);
    s.(edge := s.edge.(streams := map[1 := st]), down := [Frame.Reset(1)])
  }

  lemma FailedIsReached(window: nat) returns (acts: seq<Action>)
    ensures Reached(0, window, acts) == Failed(window)
  {
    acts := JoinedIsReached(window);
    var s := Joined(window);
    var st := s.edge.streams[1].(pump := Pump.Stopped);
    var s1 := s.(edge := s.edge.(streams := map[1 := st.(abort := E.MustClose)]));
    var s2 := s.(edge := s.edge.(streams := map[1 := st.(abort := E.MustReset, inTable := false, closer := E.Removed)]));
    FailSteps(s, s1, s2, window);
    Further(window, acts, s, EdgeActs(E.Do(1, E.Upload(E.FailBody))), s1);
    acts := acts + [EdgeActs(E.Do(1, E.Upload(E.FailBody)))];
    Further(window, acts, s1, EdgeActs(E.Do(1, E.Upload(E.PumpClose))), s2);
    acts := acts + [EdgeActs(E.Do(1, E.Upload(E.PumpClose)))];
    Further(window, acts, s2, EdgeActs(E.Do(1, E.Upload(E.PumpReset))), Failed(window));
    acts := acts + [EdgeActs(E.Do(1, E.Upload(E.PumpReset)))];
  }

  lemma FailSteps(s: Sys, s1: Sys, s2: Sys, window: nat)
    requires s == Joined(window)
    requires
      var st := s.edge.streams[1].(pump := Pump.Stopped);
      && s1 == s.(edge := s.edge.(streams := map[1 := st.(abort := E.MustClose)]))
      && s2 == s.(edge := s.edge.(streams := map[1 := st.(abort := E.MustReset, inTable := false, closer := E.Removed)]))
    ensures Next(s, EdgeActs(E.Do(1, E.Upload(E.FailBody)))) == s1
    ensures Next(s1, EdgeActs(E.Do(1, E.Upload(E.PumpClose)))) == s2
    ensures Next(s2, EdgeActs(E.Do(1, E.Upload(E.PumpReset)))) == Failed(window)
  {
    assert Next(s, EdgeActs(E.Do(1, E.Upload(E.FailBody)))).edge.streams == s1.edge.streams;
    assert Next(s1, EdgeActs(E.Do(1, E.Upload(E.PumpClose)))).edge.streams == s2.edge.streams;
    assert Next(s2, EdgeActs(E.Do(1, E.Upload(E.PumpReset)))).edge.streams == Failed(window).edge.streams;
    assert [] + [Frame.Reset(1)] == [Frame.Reset(1)];
  }

  /** From the start: the client's body fails before any of it was sent. The local service has been
      handed an empty request body that has ended, although the client never came to the end of its own. */
  lemma CutRequestExample(window: nat)
    ensures exists acts ::
      var s := Reached(0, window, acts);
      && BodyClosed(s.agent, 1) && s.agent.streams[1].rxAlive && s.agent.streams[1].bodyOpen
      && Got(s.agent, 1) == [] && !E.At(s.edge, 1).pump.Ended?
  {
    var acts := FailedIsReached(window);
    var s := Next(Failed(window), AgentReads);
    Further(window, acts, Failed(window), AgentReads, s);
    assert BodyClosed(Reached(0, window, acts + [AgentReads]).agent, 1);
  }
}
