/** What holds of edge and agent together in every run of the system. */
module TunnelRuns {
  import opened Wrappers
  import opened Frames
  import opened Flow
  import E = Edge
  import A = Agent
  import opened EdgeRuns
  import opened Tunnel
  import ES = TunnelEdgeSteps
  import GS = TunnelAgentSteps

  ghost predicate SysInv(s: Sys) {
    && EdgeInv(s.edge)
    && (forall i: nat :: ViewOk(s.edge.window, i, ViewOf(s, i)))
    && (A.HasId(s.agent.loop) ==> s.agent.loop.id in s.agent.streams)
  }

  /** Two states differ, as far as the lanes can tell, in the view of one stream only. */
  ghost predicate OnlyAt(s: Sys, s': Sys, i: nat) {
    && s'.edge.window == s.edge.window
    && (forall j: nat | j != i :: ViewOf(s', j) == ViewOf(s, j))
  }

  lemma OnlyAtKeeps(s: Sys, s': Sys, i: nat)
    requires forall j: nat :: ViewOk(s.edge.window, j, ViewOf(s, j))
    requires OnlyAt(s, s', i) && ViewOk(s.edge.window, i, ViewOf(s', i))
    ensures forall j: nat :: ViewOk(s'.edge.window, j, ViewOf(s', j))
  {
    forall j: nat
      ensures ViewOk(s'.edge.window, j, ViewOf(s', j))
    {
      if j != i {
        assert ViewOf(s', j) == ViewOf(s, j);
      }
    }
  }

  lemma AtLifeOk(e: E.Edge, i: nat)
    requires EdgeInv(e)
    ensures LifeOk(e.window, E.At(e, i))
  {
  }

  // ---- steps of the edge -------------------------------------------------------------------

  lemma WireSent(fifo: seq<Frame>, out: seq<Frame>, i: nat)
    requires |out| <= 1
    ensures Wire(fifo + out, i) == Wire(fifo, i) + (if out != [] && out[0].id == i then out else [])
  {
    if out == [] {
      assert fifo + out == fifo;
    } else {
      assert out == [out[0]];
      WireAppend(fifo, out[0], i);
    }
  }

  lemma EdgeDoes(s: Sys, i: nat, step: E.EdgeLocal)
    requires SysInv(s) && i in s.edge.streams
    requires E.LocalMove(i, s.edge.window, s.edge.queueOpen, s.edge.streams[i], step).Some?
    ensures forall j: nat :: ViewOk(s.edge.window, j, ViewOf(Next(s, EdgeActs(E.Do(i, step))), j))
  {
    var w := s.edge.window;
    var m := E.LocalMove(i, w, s.edge.queueOpen, s.edge.streams[i], step).value;
    AtLifeOk(s.edge, i);
    OutputOfOne(i, w, s.edge.queueOpen, s.edge.streams[i], step);
    ES.LocalKeepsView(w, i, ViewOf(s, i), step);
    EdgeDidIt(s, i, step);
    EdgeLands(s, Next(s, EdgeActs(E.Do(i, step))), i, m.st, s.edge.loop, m.out);
  }

  lemma EdgeDidIt(s: Sys, i: nat, step: E.EdgeLocal)
    requires i in s.edge.streams
    requires E.LocalMove(i, s.edge.window, s.edge.queueOpen, s.edge.streams[i], step).Some?
    ensures
      var m := E.LocalMove(i, s.edge.window, s.edge.queueOpen, s.edge.streams[i], step).value;
      Next(s, EdgeActs(E.Do(i, step))) == s.(edge := s.edge.(streams := s.edge.streams[i := m.st]), down := s.down + m.out)
  {
  }

  /** As `EdgeWrites`, with the new view known to be in order. */
  lemma EdgeLands(s: Sys, s': Sys, i: nat, st: E.EdgeStream, loop: E.EdgeLoop, out: seq<Frame>)
    requires forall j: nat :: ViewOk(s.edge.window, j, ViewOf(s, j))
    requires i in s.edge.streams
    requires s'.edge.streams == s.edge.streams[i := st] && s'.edge.loop == loop
    requires s'.edge.window == s.edge.window && s'.edge.queueOpen == s.edge.queueOpen
    requires s'.agent == s.agent && s'.up == s.up && s'.down == s.down + out
    requires |out| <= 1 && (out != [] ==> out[0].id == i)
    requires E.HasId(s.edge.loop) && s.edge.loop.id != i ==> loop == s.edge.loop
    requires E.HasId(loop) && loop.id != i ==> loop == s.edge.loop
    requires ViewOk(s.edge.window, i, ViewOf(s, i).(st := st, eloop := EdgeLoopAt(loop, i), down := ViewOf(s, i).down + out))
    ensures forall j: nat :: ViewOk(s.edge.window, j, ViewOf(s', j))
  {
    EdgeWrites(s, s', i, st, loop, out);
    OnlyAtKeeps(s, s', i);
  }

  lemma OutputOfOne(i: nat, window: nat, queueOpen: bool, st: E.EdgeStream, a: E.EdgeLocal)
    requires LifeOk(window, st) && E.LocalMove(i, window, queueOpen, st, a).Some?
    ensures
      var out := E.LocalMove(i, window, queueOpen, st, a).value.out;
      |out| <= 1 && (out != [] ==> out[0].id == i)
  {
    match a
    case Handle(h) => ES.HandlerOutput(window, i, queueOpen, st, h);
    case Upload(u) => ES.UploadOutput(window, i, queueOpen, st, u);
  }

  /** The edge wrote stream `i`, moved its loop, and queued at most one frame of that stream. */
  lemma EdgeWrites(s: Sys, s': Sys, i: nat, st: E.EdgeStream, loop: E.EdgeLoop, out: seq<Frame>)
    requires i in s.edge.streams
    requires s'.edge.streams == s.edge.streams[i := st] && s'.edge.loop == loop
    requires s'.edge.window == s.edge.window && s'.edge.queueOpen == s.edge.queueOpen
    requires s'.agent == s.agent && s'.up == s.up && s'.down == s.down + out
    requires |out| <= 1 && (out != [] ==> out[0].id == i)
    requires E.HasId(s.edge.loop) && s.edge.loop.id != i ==> loop == s.edge.loop
    requires E.HasId(loop) && loop.id != i ==> loop == s.edge.loop
    ensures OnlyAt(s, s', i)
    ensures ViewOf(s', i) == ViewOf(s, i).(st := st, eloop := EdgeLoopAt(loop, i), down := ViewOf(s, i).down + out)
  {
    forall j: nat
      ensures Wire(s'.down, j) == Wire(s.down, j) + (if out != [] && j == i then out else [])
    {
      WireSent(s.down, out, j);
    }
    assert Wire(s.down, i) + [] == Wire(s.down, i);
  }

  lemma LoopKeptView(s: Sys, a: E.EdgeAction)
    requires SysInv(s) && E.HasId(s.edge.loop)
    requires E.LoopMove(s.edge.queueOpen, E.At(s.edge, s.edge.loop.id), s.edge.loop, a).Some?
    ensures
      var i := s.edge.loop.id;
      var m := E.LoopMove(s.edge.queueOpen, E.At(s.edge, i), s.edge.loop, a).value;
      ViewOk(s.edge.window, i, ViewOf(s, i).(st := m.st, eloop := m.loop, down := ViewOf(s, i).down + m.out))
  {
    AtLifeOk(s.edge, s.edge.loop.id);
    ES.LoopKeepsView(s.edge.window, s.edge.loop.id, ViewOf(s, s.edge.loop.id), a);
  }

  lemma EdgeLoopSteps(s: Sys, a: E.EdgeAction)
    requires SysInv(s) && E.HasId(s.edge.loop)
    requires E.LoopMove(s.edge.queueOpen, E.At(s.edge, s.edge.loop.id), s.edge.loop, a).Some?
    ensures forall j: nat :: ViewOk(s.edge.window, j, ViewOf(Next(s, EdgeActs(a)), j))
  {
    var i := s.edge.loop.id;
    var m := E.LoopMove(s.edge.queueOpen, E.At(s.edge, i), s.edge.loop, a).value;
    LoopWorksOnKnown(s);
    LoopKeptView(s, a);
    EdgeLooped(s, a);
    EdgeLands(s, Next(s, EdgeActs(a)), i, m.st, m.loop, m.out);
  }

  lemma LoopWorksOnKnown(s: Sys)
    requires SysInv(s) && E.HasId(s.edge.loop)
    ensures s.edge.loop.id in s.edge.streams
  {
    assert ViewOk(s.edge.window, s.edge.loop.id, ViewOf(s, s.edge.loop.id));
  }

  lemma EdgeLooped(s: Sys, a: E.EdgeAction)
    requires E.HasId(s.edge.loop) && s.edge.loop.id in s.edge.streams
    requires E.LoopMove(s.edge.queueOpen, E.At(s.edge, s.edge.loop.id), s.edge.loop, a).Some?
    ensures
      var i := s.edge.loop.id;
      var m := E.LoopMove(s.edge.queueOpen, E.At(s.edge, i), s.edge.loop, a).value;
      && Next(s, EdgeActs(a)) == s.(edge := s.edge.(streams := s.edge.streams[i := m.st], loop := m.loop), down := s.down + m.out)
      && |m.out| <= 1 && (m.out != [] ==> m.out[0].id == i)
      && (E.HasId(m.loop) ==> m.loop.id == i)
  {
  }

  lemma EdgeTearsDown(s: Sys, i: nat)
    requires SysInv(s) && s.edge.loop.Teardown? && i in s.edge.loop.ids
    ensures forall j: nat :: ViewOk(s.edge.window, j, ViewOf(Next(s, EdgeActs(E.TeardownClose(i))), j))
  {
    var s' := Next(s, EdgeActs(E.TeardownClose(i)));
    assert s.down + [] == s.down;
    if i in s.edge.streams {
      EdgeCloses(s, i, s');
    } else {
      SameViews(s, s');
    }
  }

  /** A step that queues nothing and leaves the loop's business with the stream alone. */
  lemma StillView(s: Sys, i: nat, st: E.EdgeStream, loop: E.EdgeLoop)
    requires EdgeLoopAt(loop, i) == EdgeLoopAt(s.edge.loop, i)
    ensures ViewOf(s, i).(st := st, eloop := EdgeLoopAt(loop, i), down := ViewOf(s, i).down + []) == ViewOf(s, i).(st := st)
    ensures s.down + [] == s.down
  {
    assert ViewOf(s, i).down + [] == ViewOf(s, i).down;
  }

  lemma EdgeCloses(s: Sys, i: nat, s': Sys)
    requires SysInv(s) && s.edge.loop.Teardown? && i in s.edge.streams
    requires s' == s.(edge := s.edge.(streams := s.edge.streams[i := E.Close(s.edge.streams[i])], loop := s'.edge.loop))
    requires !E.HasId(s'.edge.loop)
    ensures forall j: nat :: ViewOk(s.edge.window, j, ViewOf(s', j))
  {
    AtLifeOk(s.edge, i);
    ES.CloseKeepsView(s.edge.window, i, ViewOf(s, i));
    StillView(s, i, E.Close(s.edge.streams[i]), s'.edge.loop);
    EdgeLands(s, s', i, E.Close(s.edge.streams[i]), s'.edge.loop, []);
  }

  lemma EdgeCounts(s: Sys, a: E.EdgeAction)
    requires SysInv(s) && (a.Count? || a.CountDown?)
    ensures forall j: nat :: ViewOk(s.edge.window, j, ViewOf(Next(s, EdgeActs(a)), j))
  {
    var s' := Next(s, EdgeActs(a));
    var i := a.id;
    assert s.down + [] == s.down;
    if i in s.edge.streams && s'.edge.streams[i] != s.edge.streams[i] {
      CounterWrites(s.edge, a);
      EdgeCounted(s, s', i, s'.edge.streams[i]);
    } else {
      CounterIdle(s.edge, a);
    }
  }

  lemma EdgeCounted(s: Sys, s': Sys, i: nat, st: E.EdgeStream)
    requires SysInv(s) && i in s.edge.streams
    requires (s.edge.streams[i].handler.Inserted? && st == s.edge.streams[i].(handler := E.Counted))
          || (s.edge.streams[i].closer.SemaphoreClosed? && st == s.edge.streams[i].(closer := E.Finished))
    requires s' == s.(edge := s.edge.(streams := s.edge.streams[i := st], openStreams := s'.edge.openStreams))
    ensures forall j: nat :: ViewOk(s.edge.window, j, ViewOf(s', j))
  {
    ES.CounterKeepsView(s.edge.window, i, ViewOf(s, i), st);
    StillView(s, i, st, s.edge.loop);
    EdgeLands(s, s', i, st, s.edge.loop, []);
  }

  lemma CounterWrites(e: E.Edge, a: E.EdgeAction)
    requires (a.Count? || a.CountDown?) && a.id in e.streams
    ensures
      var (e', out) := E.Step(e, a);
      && out == [] && a.id in e'.streams && e'.streams == e.streams[a.id := e'.streams[a.id]]
      && e'.loop == e.loop && e'.window == e.window && e'.queueOpen == e.queueOpen
  {
    assert e.streams == e.streams[a.id := e.streams[a.id]];
  }

  lemma CounterIdle(e: E.Edge, a: E.EdgeAction)
    requires a.Count? || a.CountDown?
    requires a.id in e.streams && a.id in E.Step(e, a).0.streams ==> E.Step(e, a).0.streams[a.id] == e.streams[a.id]
    ensures E.Step(e, a) == (e, [])
  {
  }

  /** Nothing that a view shows has changed. */
  lemma SameViews(s: Sys, s': Sys)
    requires forall j: nat :: ViewOk(s.edge.window, j, ViewOf(s, j))
    requires s'.edge.window == s.edge.window && s'.edge.queueOpen == s.edge.queueOpen && s'.agent.queueOpen == s.agent.queueOpen
    requires s'.down == s.down && s'.up == s.up && s'.agent.streams == s.agent.streams
    requires forall j: nat :: E.At(s'.edge, j) == E.At(s.edge, j)
    requires s'.edge.loop == s.edge.loop || (!E.HasId(s.edge.loop) && !E.HasId(s'.edge.loop))
    requires s'.agent.loop == s.agent.loop || (!A.HasId(s.agent.loop) && !A.HasId(s'.agent.loop))
    ensures forall j: nat :: ViewOk(s'.edge.window, j, ViewOf(s', j))
  {
    forall j: nat
      ensures ViewOk(s'.edge.window, j, ViewOf(s', j))
    {
      assert ViewOf(s', j) == ViewOf(s, j);
    }
  }

  lemma Severs(s: Sys, s': Sys)
    requires SysInv(s)
    requires s' == s.(edge := s.edge.(queueOpen := false)) || s' == s.(agent := s.agent.(queueOpen := false))
    ensures forall j: nat :: ViewOk(s'.edge.window, j, ViewOf(s', j))
  {
    forall j: nat
      ensures ViewOk(s'.edge.window, j, ViewOf(s', j))
    {
      ES.SeverKeepsView(s.edge.window, j, ViewOf(s, j), s'.edge.queueOpen, s'.agent.queueOpen);
    }
  }

  lemma EdgeStepKeeps(s: Sys, a: E.EdgeAction)
    requires SysInv(s)
    ensures SysInv(Next(s, EdgeActs(a)))
  {
    var s' := Next(s, EdgeActs(a));
    StepKeeps(s.edge, a);
    EdgeStepWindow(s.edge, a);
    assert s.down + [] == s.down;
    match a
    case Do(i, step) =>
      if i in s.edge.streams && E.LocalMove(i, s.edge.window, s.edge.queueOpen, s.edge.streams[i], step).Some? {
        EdgeDoes(s, i, step);
      }
    case Count(_) => EdgeCounts(s, a);
    case CountDown(_) => EdgeCounts(s, a);
    case LoopDeliver => EdgeLoopKeeps(s, a);
    case LoopClose => EdgeLoopKeeps(s, a);
    case LoopGrant => EdgeLoopKeeps(s, a);
    case TeardownClose(i) =>
      if s.edge.loop.Teardown? && i in s.edge.loop.ids {
        EdgeTearsDown(s, i);
      }
    case Admit => SameViews(s, s');
    case Allocate => SameViews(s, s');
    case HangUp => SameViews(s, s');
    case Disconnect => Severs(s, s');
  }

  lemma EdgeStepWindow(e: E.Edge, a: E.EdgeAction)
    ensures E.Step(e, a).0.window == e.window && E.Step(e, a).0.limit == e.limit
  {
  }

  lemma EdgeLoopKeeps(s: Sys, a: E.EdgeAction)
    requires SysInv(s) && (a.LoopDeliver? || a.LoopClose? || a.LoopGrant?)
    ensures forall j: nat :: ViewOk(s.edge.window, j, ViewOf(Next(s, EdgeActs(a)), j))
  {
    assert s.down + [] == s.down;
    if E.HasId(s.edge.loop) && E.LoopMove(s.edge.queueOpen, E.At(s.edge, s.edge.loop.id), s.edge.loop, a).Some? {
      EdgeLoopSteps(s, a);
    }
  }

  lemma WireTaken(fifo: seq<Frame>, i: nat)
    requires fifo != []
    ensures fifo[0].id == i ==> Wire(fifo, i) != [] && Wire(fifo, i)[0] == fifo[0] && Wire(fifo[1..], i) == Wire(fifo, i)[1..]
    ensures fifo[0].id != i ==> Wire(fifo[1..], i) == Wire(fifo, i)
  {
    if fifo[0].id == i {
      assert Wire(fifo, i) == [fifo[0]] + Wire(fifo[1..], i);
    } else {
      assert Wire(fifo, i) == [] + Wire(fifo[1..], i);
    }
  }

  /** The edge took the first frame of the up FIFO, wrote its stream and moved its idle loop. */
  lemma EdgeTakes(s: Sys, s': Sys, i: nat, st: E.EdgeStream, loop: E.EdgeLoop)
    requires s.up != [] && s.up[0].id == i && i in s.edge.streams
    requires s' == s.(edge := s.edge.(streams := s.edge.streams[i := st], loop := loop), up := s.up[1..])
    requires s.edge.loop.Ready? && (loop.Ready? || (E.HasId(loop) && loop.id == i))
    ensures OnlyAt(s, s', i)
    ensures ViewOf(s, i).up != [] && ViewOf(s, i).up[0] == s.up[0]
    ensures ViewOf(s', i) == ViewOf(s, i).(st := st, eloop := loop, up := ViewOf(s, i).up[1..])
  {
    WireTaken(s.up, i);
    forall j: nat | j != i
      ensures ViewOf(s', j) == ViewOf(s, j)
    {
      WireTaken(s.up, j);
    }
  }

  lemma EdgeReadKeeps(s: Sys)
    requires SysInv(s)
    ensures SysInv(Next(s, EdgeReads))
  {
    if s.edge.loop.Ready? && s.up != [] && !s.up[0].Open? {
      var f: ClientFrame := s.up[0];
      FeedKeeps(s.edge, Arrives(f));
      EdgeReadViews(s, f);
    }
  }

  lemma UpFrameIsKnown(s: Sys)
    requires SysInv(s) && s.up != []
    ensures s.up[0].id in s.edge.streams
  {
    WireTaken(s.up, s.up[0].id);
    assert ViewOk(s.edge.window, s.up[0].id, ViewOf(s, s.up[0].id));
  }

  lemma EdgeReadViews(s: Sys, f: ClientFrame)
    requires SysInv(s) && s.edge.loop.Ready? && s.up != [] && s.up[0] == f
    ensures forall j: nat :: ViewOk(s.edge.window, j, ViewOf(Next(s, EdgeReads), j))
  {
    var i := f.id;
    UpFrameIsKnown(s);
    AtLifeOk(s.edge, i);
    ReceiveLoops(s.edge.streams[i], f);
    var (st, loop) := E.Receive(s.edge.streams[i], f);
    var s' := Next(s, EdgeReads);
    EdgeTakes(s, s', i, st, loop);
    ES.ReceiveKeepsView(s.edge.window, i, ViewOf(s, i), f);
    OnlyAtKeeps(s, s', i);
  }

  lemma ReceiveLoops(st: E.EdgeStream, f: ClientFrame)
    ensures E.HasId(E.Receive(st, f).1) ==> E.Receive(st, f).1.id == f.id
    ensures E.Receive(st, f).1.Ready? || E.HasId(E.Receive(st, f).1)
  {
  }

  // ---- steps of the agent --------------------------------------------------------------------

  /** The agent wrote stream `i`, moved its loop, and queued at most one frame of that stream. */
  lemma AgentWrites(s: Sys, s': Sys, i: nat, st: A.AgentStream, loop: A.AgentLoop, out: seq<Frame>)
    requires i in s.agent.streams
    requires s'.agent == s.agent.(streams := s.agent.streams[i := st], loop := loop)
    requires s'.edge == s.edge && s'.down == s.down && s'.up == s.up + out
    requires |out| <= 1 && (out != [] ==> out[0].id == i)
    requires A.HasId(s.agent.loop) && s.agent.loop.id != i ==> loop == s.agent.loop
    requires A.HasId(loop) && loop.id != i ==> loop == s.agent.loop
    ensures OnlyAt(s, s', i)
    ensures ViewOf(s', i) == ViewOf(s, i).(ag := Some(st), aloop := AgentLoopAt(loop, i), up := ViewOf(s, i).up + out)
  {
    forall j: nat
      ensures Wire(s'.up, j) == Wire(s.up, j) + (if out != [] && j == i then out else [])
    {
      WireSent(s.up, out, j);
    }
    assert Wire(s.up, i) + [] == Wire(s.up, i);
  }

  lemma TaskKeeps(s: Sys, i: nat, step: A.AgentLocal)
    requires SysInv(s) && i in s.agent.streams
    requires A.LocalMove(i, s.agent.queueOpen, s.agent.streams[i], step).Some?
    ensures forall j: nat :: ViewOk(s.edge.window, j, ViewOf(Next(s, AgentActs(A.Do(i, step))), j))
  {
    var v := ViewOf(s, i);
    var m := A.LocalMove(i, s.agent.queueOpen, s.agent.streams[i], step).value;
    assert AgentOk(s.agent.streams[i]) by {
      assert ViewOk(s.edge.window, i, v);
    }
    GS.TaskSound(i, s.agent.queueOpen, s.agent.streams[i], step);
    GS.TaskKeepsView(s.edge.window, i, v, step);
    TaskDidIt(s, i, step);
    var s' := Next(s, AgentActs(A.Do(i, step)));
    AgentWrites(s, s', i, m.st, s.agent.loop, m.out);
    OnlyAtKeeps(s, s', i);
  }

  lemma TaskDidIt(s: Sys, i: nat, step: A.AgentLocal)
    requires i in s.agent.streams
    requires A.LocalMove(i, s.agent.queueOpen, s.agent.streams[i], step).Some?
    ensures
      var m := A.LocalMove(i, s.agent.queueOpen, s.agent.streams[i], step).value;
      Next(s, AgentActs(A.Do(i, step))) == s.(agent := s.agent.(streams := s.agent.streams[i := m.st]), up := s.up + m.out)
  {
  }

  lemma AgentLoopKeeps(s: Sys, a: A.AgentAction)
    requires SysInv(s) && (a.LoopDeliver? || a.LoopDrop? || a.LoopCredit?)
    ensures forall j: nat :: ViewOk(s.edge.window, j, ViewOf(Next(s, AgentActs(a)), j))
  {
    assert s.up + [] == s.up;
    if A.HasId(s.agent.loop) {
      var i := s.agent.loop.id;
      if A.LoopMove(s.agent.queueOpen, s.agent.streams[i], s.agent.loop, a).Some? {
        AgentLoopSteps(s, i, a);
      }
    }
  }

  lemma AgentLoopSteps(s: Sys, i: nat, a: A.AgentAction)
    requires SysInv(s) && A.HasId(s.agent.loop) && i == s.agent.loop.id
    requires a.LoopDeliver? || a.LoopDrop? || a.LoopCredit?
    requires A.LoopMove(s.agent.queueOpen, s.agent.streams[i], s.agent.loop, a).Some?
    ensures forall j: nat :: ViewOk(s.edge.window, j, ViewOf(Next(s, AgentActs(a)), j))
  {
    var m := A.LoopMove(s.agent.queueOpen, s.agent.streams[i], s.agent.loop, a).value;
    var s' := Next(s, AgentActs(a));
    AgentLoopOutput(s, i, a);
    GS.LoopKeepsView(s.edge.window, i, ViewOf(s, i), a);
    AgentWrites(s, s', i, m.st, m.loop, m.out);
    OnlyAtKeeps(s, s', i);
  }

  lemma AgentLoopOutput(s: Sys, i: nat, a: A.AgentAction)
    requires A.HasId(s.agent.loop) && i == s.agent.loop.id && i in s.agent.streams
    requires a.LoopDeliver? || a.LoopDrop? || a.LoopCredit?
    requires A.LoopMove(s.agent.queueOpen, s.agent.streams[i], s.agent.loop, a).Some?
    ensures
      var m := A.LoopMove(s.agent.queueOpen, s.agent.streams[i], s.agent.loop, a).value;
      && |m.out| <= 1 && (m.out != [] ==> m.out[0].id == i)
      && (A.HasId(m.loop) ==> m.loop.id == i)
      && (m.loop.Ready? || A.HasId(m.loop))
      && Next(s, AgentActs(a)) == s.(agent := s.agent.(streams := s.agent.streams[i := m.st], loop := m.loop), up := s.up + m.out)
  {
  }

  lemma AgentStepKeeps(s: Sys, a: A.AgentAction)
    requires SysInv(s)
    ensures SysInv(Next(s, AgentActs(a)))
  {
    var s' := Next(s, AgentActs(a));
    assert s.up + [] == s.up;
    match a
    case Do(i, step) =>
      if i in s.agent.streams && A.LocalMove(i, s.agent.queueOpen, s.agent.streams[i], step).Some? {
        TaskKeeps(s, i, step);
      }
    case LoopDeliver => AgentLoopKeeps(s, a);
    case LoopDrop => AgentLoopKeeps(s, a);
    case LoopCredit => AgentLoopKeeps(s, a);
    case StopLoop => SameViews(s, s');
    case Disconnect => Severs(s, s');
  }

  /** The agent took the first frame of the down FIFO, wrote its stream and moved its idle loop. */
  lemma AgentTakes(s: Sys, s': Sys, i: nat, st: A.AgentStream, loop: A.AgentLoop)
    requires s.down != [] && s.down[0].id == i
    requires s' == s.(agent := s.agent.(streams := s.agent.streams[i := st], loop := loop), down := s.down[1..])
    requires s.agent.loop.Ready? && (loop.Ready? || (A.HasId(loop) && loop.id == i))
    ensures OnlyAt(s, s', i)
    ensures ViewOf(s, i).down != [] && ViewOf(s, i).down[0] == s.down[0]
    ensures ViewOf(s', i) == ViewOf(s, i).(ag := Some(st), aloop := loop, down := ViewOf(s, i).down[1..])
  {
    WireTaken(s.down, i);
    forall j: nat | j != i
      ensures ViewOf(s', j) == ViewOf(s, j)
    {
      WireTaken(s.down, j);
    }
  }

  lemma DownFrameIsKnown(s: Sys)
    requires SysInv(s) && s.down != [] && !s.down[0].Open?
    ensures s.down[0].id in s.agent.streams
  {
    WireTaken(s.down, s.down[0].id);
    assert ViewOk(s.edge.window, s.down[0].id, ViewOf(s, s.down[0].id));
  }

  lemma NextOpenIsNew(s: Sys)
    requires SysInv(s) && s.down != [] && s.down[0].Open?
    ensures s.down[0].id !in s.agent.streams
  {
    var i := s.down[0].id;
    assert ViewOk(s.edge.window, i, ViewOf(s, i));
    WireTaken(s.down, i);
  }

  lemma AgentReadKeeps(s: Sys)
    requires SysInv(s)
    ensures SysInv(Next(s, AgentReads))
  {
    if s.agent.loop.Ready? && s.down != [] {
      var f := s.down[0];
      var i := f.id;
      var s' := Next(s, AgentReads);
      if f.Open? {
        assert s' == s.(agent := s.agent.(streams := s.agent.streams[i := A.Register(f.window)], loop := A.Ready), down := s.down[1..]);
        AgentTakes(s, s', i, A.Register(f.window), A.Ready);
        GS.OpenKeepsView(s.edge.window, i, ViewOf(s, i), f);
        OnlyAtKeeps(s, s', i);
      } else {
        AgentReadStream(s, f);
      }
    }
  }

  lemma AgentReadStream(s: Sys, f: Frame)
    requires SysInv(s) && s.agent.loop.Ready? && s.down != [] && s.down[0] == f && !f.Open?
    ensures SysInv(Next(s, AgentReads))
  {
    var i := f.id;
    DownFrameIsKnown(s);
    var (st, loop) := A.Receive(s.agent.streams[i], f);
    var s' := Next(s, AgentReads);
    assert loop.Ready? || (A.HasId(loop) && loop.id == i);
    AgentTakes(s, s', i, st, loop);
    GS.ReceiveKeepsView(s.edge.window, i, ViewOf(s, i), f);
    OnlyAtKeeps(s, s', i);
  }

  // ---- runs --------------------------------------------------------------------------------------

  lemma NextKeeps(s: Sys, act: Action)
    requires SysInv(s)
    ensures SysInv(Next(s, act))
  {
    match act
    case EdgeActs(a) => EdgeStepKeeps(s, a);
    case AgentActs(b) => AgentStepKeeps(s, b);
    case EdgeReads => EdgeReadKeeps(s);
    case AgentReads => AgentReadKeeps(s);
  }

  lemma StartOk(limit: nat, window: nat)
    ensures SysInv(Start(limit, window))
  {
    InitOk(limit, window);
    forall i: nat
      ensures ViewOk(window, i, ViewOf(Start(limit, window), i))
    {
      assert DataOf([]) == [];
    }
  }

  lemma {:induction false} ExecKeeps(s: Sys, acts: seq<Action>)
    requires SysInv(s)
    ensures SysInv(Exec(s, acts))
    ensures Exec(s, acts).edge.window == s.edge.window
    decreases |acts|
  {
    if acts != [] {
      NextKeeps(s, acts[0]);
      WindowStays(s, acts[0]);
      ExecKeeps(Next(s, acts[0]), acts[1..]);
    }
  }

  lemma WindowStays(s: Sys, act: Action)
    ensures Next(s, act).edge.window == s.edge.window
  {
    if act.EdgeActs? {
      EdgeStepWindow(s.edge, act.a);
    }
  }
}
