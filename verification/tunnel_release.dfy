/** What becomes of streams that one side has given up, in every run of both sides. */
module TunnelRelease {
  import opened Wrappers
  import opened Frames
  import opened Flow
  import E = Edge
  import A = Agent
  import opened EdgeBodies
  import opened EdgeRuns
  import opened Tunnel
  import opened TunnelRuns
  import opened TunnelTheorems

  // ---- the agent's senders -----------------------------------------------------------------------

  /** A sender of the agent that was waiting for credit when its stream was dropped, or has stopped. */
  predicate LetGo(g: A.AgentStream, sent: Bytes) {
    !g.inTable && (g.pump.Sending? || g.pump.Stopped?) && g.sent == sent
  }

  lemma LetGoMove(i: nat, queueOpen: bool, g: A.AgentStream, a: A.AgentLocal, sent: Bytes)
    requires LetGo(g, sent) && A.LocalMove(i, queueOpen, g, a).Some?
    ensures LetGo(A.LocalMove(i, queueOpen, g, a).value.st, sent)
  {
  }

  lemma LetGoStep(g: A.Agent, b: A.AgentAction, i: nat, sent: Bytes)
    requires i in g.streams && LetGo(g.streams[i], sent)
    ensures i in A.Step(g, b).0.streams && LetGo(A.Step(g, b).0.streams[i], sent)
  {
    match b
    case Do(j, step) =>
      if j == i && A.LocalMove(i, g.queueOpen, g.streams[i], step).Some? {
        LetGoMove(i, g.queueOpen, g.streams[i], step, sent);
      }
    case LoopDeliver => LetGoLoop(g, b, i, sent);
    case LoopDrop => LetGoLoop(g, b, i, sent);
    case LoopCredit => LetGoLoop(g, b, i, sent);
    case _ =>
  }

  lemma LetGoLoop(g: A.Agent, b: A.AgentAction, i: nat, sent: Bytes)
    requires i in g.streams && LetGo(g.streams[i], sent)
    ensures i in A.LoopStep(g, b).0.streams && LetGo(A.LoopStep(g, b).0.streams[i], sent)
  {
  }

  lemma LetGoAccept(g: A.Agent, f: Frame, i: nat, sent: Bytes)
    requires i in g.streams && LetGo(g.streams[i], sent) && g.loop.Ready? && (f.Open? ==> f.id != i)
    ensures i in A.Accept(g, f).streams && LetGo(A.Accept(g, f).streams[i], sent)
  {
  }

  lemma LetGoNext(s: Sys, act: Action, i: nat, sent: Bytes)
    requires SysInv(s) && i in s.agent.streams && LetGo(s.agent.streams[i], sent)
    ensures i in Next(s, act).agent.streams && LetGo(Next(s, act).agent.streams[i], sent)
  {
    match act
    case EdgeActs(_) =>
    case EdgeReads =>
    case AgentActs(b) => LetGoStep(s.agent, b, i, sent);
    case AgentReads =>
      if s.agent.loop.Ready? && s.down != [] {
        if s.down[0].Open? {
          NextOpenIsNew(s);
        }
        LetGoAccept(s.agent, s.down[0], i, sent);
      }
  }

  lemma {:induction false} LetGoExec(s: Sys, acts: seq<Action>, i: nat, sent: Bytes)
    requires SysInv(s) && i in s.agent.streams && LetGo(s.agent.streams[i], sent)
    ensures i in Exec(s, acts).agent.streams && LetGo(Exec(s, acts).agent.streams[i], sent)
    decreases |acts|
  {
    if acts != [] {
      LetGoNext(s, acts[0], i, sent);
      NextKeeps(s, acts[0]);
      LetGoExec(Next(s, acts[0]), acts[1..], i, sent);
    }
  }

  /** From a state in order: what a sender of a dropped stream can still do. */
  ghost predicate SendsNothing(s: Sys, later: seq<Action>, i: nat)
    requires i in s.agent.streams
  {
    var s' := Exec(s, later);
    i in s'.agent.streams &&
    var g := s'.agent.streams[i];
    && g.sent == s.agent.streams[i].sent
    && (g.pump.Stopped? || A.LocalMove(i, s'.agent.queueOpen, g, A.PumpStop).Some?)
  }

  lemma LetGoSendsNothing(s: Sys, later: seq<Action>, i: nat)
    requires SysInv(s) && i in s.agent.streams && !s.agent.streams[i].inTable && s.agent.streams[i].pump.Sending?
    ensures SendsNothing(s, later, i)
  {
    LetGoExec(s, later, i, s.agent.streams[i].sent);
  }

  /** Once the agent has dropped a stream, a sender that was waiting for its credit queues nothing
      more in any run from there, and unless it has stopped already it can stop at once. */
  lemma DroppedSenderSendsNothing(limit: nat, window: nat, acts: seq<Action>, later: seq<Action>, i: nat)
    ensures
      var s := Reached(limit, window, acts);
      i in s.agent.streams && !s.agent.streams[i].inTable && s.agent.streams[i].pump.Sending? ==> SendsNothing(s, later, i)
  {
    ReachedOk(limit, window, acts, i);
    var s := Reached(limit, window, acts);
    if i in s.agent.streams && !s.agent.streams[i].inTable && s.agent.streams[i].pump.Sending? {
      LetGoSendsNothing(s, later, i);
    }
  }

  // ---- the edge's handlers that were dropped early --------------------------------------------------

  /** A stream whose handler was cancelled before Open was queued is unknown to the agent and to the
      read loop: with this repository's agent, nothing but teardown removes its entry. */
  lemma UnannouncedWaitsForTeardown(limit: nat, window: nat, acts: seq<Action>, input: Input, i: nat)
    ensures
      var s := Reached(limit, window, acts);
      i in E.Table(s.edge) && s.edge.streams[i].handler.Cancelled? && !s.edge.streams[i].announced ==>
        && i !in s.agent.streams
        && !(E.HasId(s.edge.loop) && s.edge.loop.id == i)
        && (i !in E.Table(Feed(s.edge, input)) ==> input == Act(E.TeardownClose(i)))
  {
    ReachedOk(limit, window, acts, i);
    var s := Reached(limit, window, acts);
    if i in E.Table(s.edge) && s.edge.streams[i].handler.Cancelled? && !s.edge.streams[i].announced {
      UnannouncedIsUnknown(s, window, i);
      UnannouncedGoesBy(s.edge, input, i);
    }
  }

  lemma UnannouncedIsUnknown(s: Sys, window: nat, i: nat)
    requires Linked(window, i, ViewOf(s, i)) && !E.At(s.edge, i).announced
    ensures i !in s.agent.streams && !(E.HasId(s.edge.loop) && s.edge.loop.id == i)
  {
  }

  // ---- bodies that are cut short -------------------------------------------------------------------

  lemma LoopOnKnown(s: Sys, i: nat)
    requires SysInv(s)
    ensures OnKnown(s.edge, i)
  {
    if E.HasId(s.edge.loop) && s.edge.loop.id == i {
      LoopWorksOnKnown(s);
      AtLifeOk(s.edge, i);
      LinkedIsAnnounced(s.edge.window, i, ViewOf(s, i));
    }
  }

  lemma LinkedIsAnnounced(window: nat, i: nat, v: View)
    requires ViewOk(window, i, v) && !v.eloop.Ready?
    ensures v.st.announced
  {
    assert Linked(window, i, v);
  }

  lemma NextSettles(s: Sys, act: Action, i: nat)
    requires SysInv(s) && Settled(s.edge, i)
    ensures Settled(Next(s, act).edge, i)
  {
    LoopOnKnown(s, i);
    match act
    case EdgeActs(a) => FeedSettles(s.edge, Act(a), i);
    case EdgeReads =>
      if s.edge.loop.Ready? && s.up != [] && !s.up[0].Open? {
        FeedSettles(s.edge, Arrives(s.up[0]), i);
      }
    case _ =>
  }

  lemma {:induction false} ExecSettles(s: Sys, acts: seq<Action>, i: nat)
    requires SysInv(s) && Settled(s.edge, i)
    ensures Settled(Exec(s, acts).edge, i)
    decreases |acts|
  {
    if acts != [] {
      NextSettles(s, acts[0], i);
      NextKeeps(s, acts[0]);
      ExecSettles(Next(s, acts[0]), acts[1..], i);
    }
  }

  /** With this agent a body that is listened to is only ever cut short by the upload task, when the
      client's own body has failed, or by teardown; never by the read loop. */
  lemma CutByUploadOrTeardown(limit: nat, window: nat, acts: seq<Action>, input: Input, i: nat)
    ensures
      var e := Reached(limit, window, acts).edge;
      Cuts(e, input, i) && e.streams[i].rxAlive ==>
        input == Act(E.Do(i, E.Upload(E.PumpClose))) || input == Act(E.TeardownClose(i))
  {
    StartOk(limit, window);
    ExecSettles(Start(limit, window), acts, i);
  }
}
