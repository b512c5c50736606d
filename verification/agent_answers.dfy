/** What the agent tells the edge about every request: the head and the body of the answer and its end,
    or a Reset, and nothing else. */
module AgentAnswers {
  import opened Wrappers
  import opened Frames
  import opened Flow
  import E = Edge
  import A = Agent
  import opened EdgeRuns
  import opened Tunnel
  import opened TunnelRuns
  import opened TunnelTheorems

  // ---- what happens to a request ---------------------------------------------------------------------

  /** The local service cannot be reached. */
  predicate Refuses(s: Sys, act: Action, i: nat) {
    act == AgentActs(A.Do(i, A.LocalFails)) && i in s.agent.streams && s.agent.streams[i].serve.Requesting?
  }

  /** The body of its answer fails. */
  predicate Breaks(s: Sys, act: Action, i: nat) {
    && act == AgentActs(A.Do(i, A.LocalError)) && i in s.agent.streams
    && s.agent.streams[i].serve.Responding? && s.agent.streams[i].pump.Idle?
  }

  /** The edge's Reset arrives, or a payload cannot be delivered to the local service. */
  predicate Drops(s: Sys, act: Action, i: nat) {
    && i in s.agent.streams && s.agent.streams[i].inTable
    && ((act == AgentReads && s.agent.loop.Ready? && s.down != [] && s.down[0] == Frame.Reset(i))
        || (act == AgentActs(A.LoopDrop) && s.agent.loop.Discarding? && s.agent.loop.id == i))
  }

  predicate RefusedIn(s: Sys, acts: seq<Action>, i: nat)
    decreases |acts|
  {
    acts != [] && (Refuses(s, acts[0], i) || RefusedIn(Next(s, acts[0]), acts[1..], i))
  }

  predicate BrokeIn(s: Sys, acts: seq<Action>, i: nat)
    decreases |acts|
  {
    acts != [] && (Breaks(s, acts[0], i) || BrokeIn(Next(s, acts[0]), acts[1..], i))
  }

  predicate DroppedIn(s: Sys, acts: seq<Action>, i: nat)
    decreases |acts|
  {
    acts != [] && (Drops(s, acts[0], i) || DroppedIn(Next(s, acts[0]), acts[1..], i))
  }

  /** The frame of the stream that a step of the agent queues, but for the credit it returns. */
  function Says(s: Sys, act: Action, i: nat): seq<Frame> {
    match act
    case AgentActs(b) => Spoken(A.Step(s.agent, b).1, i)
    case _ => []
  }

  function Spoken(out: seq<Frame>, i: nat): seq<Frame> {
    if |out| == 1 && out[0].id == i && !out[0].WindowUpdate? then out else []
  }

  function Said(s: Sys, acts: seq<Action>, i: nat): seq<Frame>
    decreases |acts|
  {
    if acts == [] then [] else Says(s, acts[0], i) + Said(Next(s, acts[0]), acts[1..], i)
  }

  // ---- what is said ------------------------------------------------------------------------------------

  /** A head, Data frames that carry `sent`, and what comes last. */
  ghost predicate Answer(i: nat, said: seq<Frame>, sent: Bytes, last: seq<Frame>) {
    exists chunks :: AnswerOf(i, said, chunks, last) && Flatten(chunks) == sent
  }

  predicate AnswerOf(i: nat, said: seq<Frame>, chunks: seq<Bytes>, last: seq<Frame>) {
    said == [Frame.ResponseHead(i)] + DataFrames(i, chunks) + last
  }

  lemma HeadAnswers(i: nat)
    ensures Answer(i, [] + [Frame.ResponseHead(i)], [], [])
  {
    assert [] + [Frame.ResponseHead(i)] == [Frame.ResponseHead(i)] + DataFrames(i, []) + [];
    assert AnswerOf(i, [] + [Frame.ResponseHead(i)], [], []) && Flatten([]) == [];
  }

  lemma DataAnswers(i: nat, said: seq<Frame>, sent: Bytes, c: Bytes)
    requires Answer(i, said, sent, [])
    ensures Answer(i, said + [Frame.Data(i, c)], sent + c, [])
  {
    var chunks :| AnswerOf(i, said, chunks, []) && Flatten(chunks) == sent;
    FlattenAppend(chunks, c);
    assert DataFrames(i, chunks + [c]) == DataFrames(i, chunks) + [Frame.Data(i, c)];
    assert AnswerOf(i, said + [Frame.Data(i, c)], chunks + [c], []);
  }

  lemma LastAnswers(i: nat, said: seq<Frame>, sent: Bytes, f: Frame)
    requires Answer(i, said, sent, [])
    ensures Answer(i, said + [f], sent, [f])
  {
    var chunks :| AnswerOf(i, said, chunks, []) && Flatten(chunks) == sent;
    assert AnswerOf(i, said + [f], chunks, [f]);
  }

  /** With the queue open, what has been said of a stream, by how far its task has come: nothing until the
      head; while it answers the head and the data; at the end End, or Reset if the answer broke off; and a
      Reset alone if there was none. Only a stream that was dropped on the way may lack its last frame. */
  ghost predicate Told(i: nat, g: A.AgentStream, said: seq<Frame>, refused: bool, broke: bool, dropped: bool) {
    && (!g.inTable && !g.serve.Finished? ==> dropped)
    && match g.serve
       case Requesting => said == [] && !refused && !broke && g.sent == []
       case HeadReady => said == [] && !refused && !broke && g.sent == []
       case Responding => !refused && !broke && Answer(i, said, g.sent, [])
       case Reporting => if refused then !broke && said == [] else broke && g.pump.Stopped? && Answer(i, said, g.sent, [])
       case Dropping => Over(i, g, said, refused, broke, dropped)
       case Finished => Over(i, g, said, refused, broke, dropped)
  }

  ghost predicate Over(i: nat, g: A.AgentStream, said: seq<Frame>, refused: bool, broke: bool, dropped: bool) {
    if refused then !broke && said == [Frame.Reset(i)]
    else if broke then g.pump.Stopped? && Answer(i, said, g.sent, [Frame.Reset(i)])
    else if g.pump.Ended? then Answer(i, said, g.sent, [Frame.End(i)])
    else dropped && g.pump.Stopped? && Answer(i, said, g.sent, [])
  }

  // ---- steps of a task ---------------------------------------------------------------------------------

  predicate RefusesBy(g: A.AgentStream, step: A.AgentLocal) {
    step.LocalFails? && g.serve.Requesting?
  }

  predicate BreaksBy(g: A.AgentStream, step: A.AgentLocal) {
    step.LocalError? && g.serve.Responding? && g.pump.Idle?
  }

  ghost predicate TellsBy(i: nat, g: A.AgentStream, step: A.AgentLocal, said: seq<Frame>, refused: bool, broke: bool, dropped: bool)
    requires A.LocalMove(i, true, g, step).Some?
  {
    var m := A.LocalMove(i, true, g, step).value;
    Told(i, m.st, said + Spoken(m.out, i), refused || RefusesBy(g, step), broke || BreaksBy(g, step), dropped)
  }

  lemma BeginTells(i: nat, g: A.AgentStream, step: A.AgentLocal, said: seq<Frame>, refused: bool, broke: bool, dropped: bool)
    requires Told(i, g, said, refused, broke, dropped) && A.LocalMove(i, true, g, step).Some?
    requires step.LocalFails? || step.LocalAnswers? || step.SendHead?
    ensures TellsBy(i, g, step, said, refused, broke, dropped)
  {
    assert said + [] == said;
    if step.SendHead? {
      HeadAnswers(i);
    }
  }

  lemma ReadTells(i: nat, g: A.AgentStream, step: A.AgentLocal, said: seq<Frame>, refused: bool, broke: bool, dropped: bool)
    requires Told(i, g, said, refused, broke, dropped) && A.LocalMove(i, true, g, step).Some?
    requires step.ReadLocal? || step.LocalError? || step.LocalEnd?
    ensures TellsBy(i, g, step, said, refused, broke, dropped)
  {
    assert said + [] == said;
    if step.LocalEnd? {
      LastAnswers(i, said, g.sent, Frame.End(i));
    }
  }

  lemma SendTells(i: nat, g: A.AgentStream, step: A.AgentLocal, said: seq<Frame>, refused: bool, broke: bool, dropped: bool)
    requires Told(i, g, said, refused, broke, dropped) && A.LocalMove(i, true, g, step).Some? && AgentOk(g)
    requires step.TakeCredit? || step.PumpStop? || step.SendData?
    ensures TellsBy(i, g, step, said, refused, broke, dropped)
  {
    assert said + [] == said;
    if step.SendData? {
      DataAnswers(i, said, g.sent, g.pump.chunks[0]);
    }
  }

  lemma EndTells(i: nat, g: A.AgentStream, step: A.AgentLocal, said: seq<Frame>, refused: bool, broke: bool, dropped: bool)
    requires Told(i, g, said, refused, broke, dropped) && A.LocalMove(i, true, g, step).Some?
    requires step.SendReset? || step.DropStream? || step.PullBody? || step.DropBody?
    ensures TellsBy(i, g, step, said, refused, broke, dropped)
  {
    assert said + [] == said;
    if step.SendReset? {
      if refused {
        assert [] + [Frame.Reset(i)] == [Frame.Reset(i)];
      } else {
        LastAnswers(i, said, g.sent, Frame.Reset(i));
      }
    }
  }

  lemma TaskTells(i: nat, g: A.AgentStream, step: A.AgentLocal, said: seq<Frame>, refused: bool, broke: bool, dropped: bool)
    requires Told(i, g, said, refused, broke, dropped) && A.LocalMove(i, true, g, step).Some? && AgentOk(g)
    ensures TellsBy(i, g, step, said, refused, broke, dropped)
  {
    if step.LocalFails? || step.LocalAnswers? || step.SendHead? {
      BeginTells(i, g, step, said, refused, broke, dropped);
    } else if step.ReadLocal? || step.LocalError? || step.LocalEnd? {
      ReadTells(i, g, step, said, refused, broke, dropped);
    } else if step.TakeCredit? || step.PumpStop? || step.SendData? {
      SendTells(i, g, step, said, refused, broke, dropped);
    } else {
      EndTells(i, g, step, said, refused, broke, dropped);
    }
  }

  // ---- steps of the system -----------------------------------------------------------------------------

  /** The same of a stream that may be unknown as yet. */
  ghost predicate ToldAll(s: Sys, i: nat, said: seq<Frame>, refused: bool, broke: bool, dropped: bool) {
    if i in s.agent.streams then Told(i, s.agent.streams[i], said, refused, broke, dropped)
    else said == [] && !refused && !broke && !dropped
  }

  ghost predicate Goes(s: Sys, act: Action, i: nat, said: seq<Frame>, refused: bool, broke: bool, dropped: bool) {
    ToldAll(Next(s, act), i, said + Says(s, act, i), refused || Refuses(s, act, i), broke || Breaks(s, act, i), dropped || Drops(s, act, i))
  }

  /** Nothing that has to do with the answer changes, but that the entry may be dropped. */
  lemma SameAnswer(i: nat, g: A.AgentStream, g': A.AgentStream, said: seq<Frame>, refused: bool, broke: bool, dropped: bool, dropped': bool)
    requires Told(i, g, said, refused, broke, dropped) && (dropped ==> dropped')
    requires g'.serve == g.serve && g'.pump == g.pump && g'.sent == g.sent
    requires g'.inTable == g.inTable || dropped'
    ensures Told(i, g', said + [], refused, broke, dropped')
  {
    assert said + [] == said;
  }

  lemma OwnTaskGoes(s: Sys, step: A.AgentLocal, i: nat, said: seq<Frame>, refused: bool, broke: bool, dropped: bool)
    requires ToldAll(s, i, said, refused, broke, dropped) && i in s.agent.streams && AgentOk(s.agent.streams[i]) && s.agent.queueOpen
    requires A.LocalMove(i, true, s.agent.streams[i], step).Some?
    ensures Goes(s, AgentActs(A.Do(i, step)), i, said, refused, broke, dropped)
  {
    TaskTells(i, s.agent.streams[i], step, said, refused, broke, dropped);
  }

  lemma IdleTask(s: Sys, step: A.AgentLocal, i: nat)
    requires i in s.agent.streams && A.LocalMove(i, s.agent.queueOpen, s.agent.streams[i], step).None?
    ensures
      var act := AgentActs(A.Do(i, step));
      Next(s, act).agent == s.agent && Says(s, act, i) == [] && !Refuses(s, act, i) && !Breaks(s, act, i)
  {
  }

  lemma OtherTask(s: Sys, j: nat, step: A.AgentLocal, i: nat)
    requires j != i
    ensures
      var act := AgentActs(A.Do(j, step));
      && AgentAt(Next(s, act).agent, i) == AgentAt(s.agent, i) && Says(s, act, i) == []
  {
    if j in s.agent.streams && A.LocalMove(j, s.agent.queueOpen, s.agent.streams[j], step).Some? {
      OwnFrames(j, s.agent.queueOpen, s.agent.streams[j], step);
    }
  }

  lemma OwnFrames(j: nat, queueOpen: bool, g: A.AgentStream, step: A.AgentLocal)
    requires A.LocalMove(j, queueOpen, g, step).Some?
    ensures
      var out := A.LocalMove(j, queueOpen, g, step).value.out;
      |out| <= 1 && (out != [] ==> out[0].id == j)
  {
  }

  lemma LoopSays(g: A.Agent, b: A.AgentAction, i: nat)
    requires !b.Do?
    ensures
      var (g', out) := A.Step(g, b);
      && Spoken(out, i) == []
      && g'.streams.Keys == g.streams.Keys
      && (i in g.streams ==>
            && g'.streams[i].serve == g.streams[i].serve && g'.streams[i].pump == g.streams[i].pump
            && g'.streams[i].sent == g.streams[i].sent
            && (g'.streams[i].inTable == g.streams[i].inTable || (b.LoopDrop? && g.loop.Discarding? && g.loop.id == i)))
  {
  }

  lemma LoopGoes(s: Sys, b: A.AgentAction, i: nat, said: seq<Frame>, refused: bool, broke: bool, dropped: bool)
    requires ToldAll(s, i, said, refused, broke, dropped) && !b.Do?
    ensures Goes(s, AgentActs(b), i, said, refused, broke, dropped)
  {
    LoopSays(s.agent, b, i);
    if i in s.agent.streams {
      SameAnswer(i, s.agent.streams[i], Next(s, AgentActs(b)).agent.streams[i], said, refused, broke, dropped,
                 dropped || Drops(s, AgentActs(b), i));
    }
  }

  lemma ReadSays(s: Sys, i: nat)
    requires SysInv(s) && i in s.agent.streams && s.agent.loop.Ready? && s.down != []
    ensures
      var (g, g') := (s.agent, A.Accept(s.agent, s.down[0]));
      && i in g'.streams
      && g'.streams[i].serve == g.streams[i].serve && g'.streams[i].pump == g.streams[i].pump
      && g'.streams[i].sent == g.streams[i].sent
      && (g'.streams[i].inTable == g.streams[i].inTable || s.down[0] == Frame.Reset(i))
  {
    if s.down[0].Open? {
      NextOpenIsNew(s);
    } else {
      DownFrameIsKnown(s);
    }
  }

  lemma ReadGoes(s: Sys, i: nat, said: seq<Frame>, refused: bool, broke: bool, dropped: bool)
    requires SysInv(s) && ToldAll(s, i, said, refused, broke, dropped)
    ensures Goes(s, AgentReads, i, said, refused, broke, dropped)
  {
    assert said + [] == said;
    if s.agent.loop.Ready? && s.down != [] {
      if i in s.agent.streams {
        ReadSays(s, i);
        SameAnswer(i, s.agent.streams[i], Next(s, AgentReads).agent.streams[i], said, refused, broke, dropped,
                   dropped || Drops(s, AgentReads, i));
      } else {
        NewIsUntold(s, i);
      }
    }
  }

  lemma NewIsUntold(s: Sys, i: nat)
    requires i !in s.agent.streams && s.agent.loop.Ready? && s.down != []
    ensures
      var g' := A.Accept(s.agent, s.down[0]);
      i in g'.streams ==> g'.streams[i].serve.Requesting? && g'.streams[i].sent == [] && g'.streams[i].inTable
  {
  }

  lemma TaskGoes(s: Sys, j: nat, step: A.AgentLocal, i: nat, said: seq<Frame>, refused: bool, broke: bool, dropped: bool)
    requires SysInv(s) && s.agent.queueOpen && ToldAll(s, i, said, refused, broke, dropped)
    ensures Goes(s, AgentActs(A.Do(j, step)), i, said, refused, broke, dropped)
  {
    assert said + [] == said;
    if j != i {
      OtherTask(s, j, step, i);
    } else if i in s.agent.streams {
      if A.LocalMove(i, true, s.agent.streams[i], step).Some? {
        KnownAgentOk(s, i);
        OwnTaskGoes(s, step, i, said, refused, broke, dropped);
      } else {
        IdleTask(s, step, i);
      }
    }
  }

  lemma KnownAgentOk(s: Sys, i: nat)
    requires SysInv(s) && i in s.agent.streams
    ensures AgentOk(s.agent.streams[i])
  {
    assert ViewOk(s.edge.window, i, ViewOf(s, i));
  }

  lemma EdgeGoes(s: Sys, act: Action, i: nat, said: seq<Frame>, refused: bool, broke: bool, dropped: bool)
    requires ToldAll(s, i, said, refused, broke, dropped) && (act.EdgeActs? || act.EdgeReads?)
    ensures Goes(s, act, i, said, refused, broke, dropped)
  {
    assert said + [] == said;
  }

  lemma NextGoes(s: Sys, act: Action, i: nat, said: seq<Frame>, refused: bool, broke: bool, dropped: bool)
    requires SysInv(s) && s.agent.queueOpen && ToldAll(s, i, said, refused, broke, dropped)
    ensures Goes(s, act, i, said, refused, broke, dropped)
  {
    match act
    case AgentReads => ReadGoes(s, i, said, refused, broke, dropped);
    case AgentActs(b) =>
      if b.Do? {
        TaskGoes(s, b.id, b.step, i, said, refused, broke, dropped);
      } else {
        LoopGoes(s, b, i, said, refused, broke, dropped);
      }
    case _ => EdgeGoes(s, act, i, said, refused, broke, dropped);
  }

  // ---- runs ----------------------------------------------------------------------------------------------

  /** What is known of a stream after some part of a run. */
  datatype Story = Story(said: seq<Frame>, refused: bool, broke: bool, dropped: bool)

  ghost predicate ToldSoFar(s: Sys, i: nat, t: Story) {
    ToldAll(s, i, t.said, t.refused, t.broke, t.dropped)
  }

  function Continued(s: Sys, act: Action, i: nat, t: Story): Story {
    Story(t.said + Says(s, act, i), t.refused || Refuses(s, act, i), t.broke || Breaks(s, act, i), t.dropped || Drops(s, act, i))
  }

  function StoryAfter(s: Sys, acts: seq<Action>, i: nat, t: Story): Story
    decreases |acts|
  {
    if acts == [] then t else StoryAfter(Next(s, acts[0]), acts[1..], i, Continued(s, acts[0], i, t))
  }

  lemma {:induction false} QueueWasOpen(s: Sys, acts: seq<Action>)
    ensures Exec(s, acts).agent.queueOpen ==> s.agent.queueOpen
    decreases |acts|
  {
    if acts != [] {
      QueueWasOpen(Next(s, acts[0]), acts[1..]);
    }
  }

  lemma {:induction false} ExecGoes(s: Sys, acts: seq<Action>, i: nat, t: Story)
    requires SysInv(s) && Exec(s, acts).agent.queueOpen && ToldSoFar(s, i, t)
    ensures ToldSoFar(Exec(s, acts), i, StoryAfter(s, acts, i, t))
    decreases |acts|
  {
    if acts != [] {
      QueueWasOpen(s, acts);
      NextGoes(s, acts[0], i, t.said, t.refused, t.broke, t.dropped);
      NextKeeps(s, acts[0]);
      ExecGoes(Next(s, acts[0]), acts[1..], i, Continued(s, acts[0], i, t));
    }
  }

  lemma {:induction false} StoryIs(s: Sys, acts: seq<Action>, i: nat, t: Story)
    ensures StoryAfter(s, acts, i, t) ==
      Story(t.said + Said(s, acts, i), t.refused || RefusedIn(s, acts, i), t.broke || BrokeIn(s, acts, i), t.dropped || DroppedIn(s, acts, i))
    decreases |acts|
  {
    if acts == [] {
      assert t.said + [] == t.said;
    } else {
      var rest := Said(Next(s, acts[0]), acts[1..], i);
      StoryIs(Next(s, acts[0]), acts[1..], i, Continued(s, acts[0], i, t));
      assert t.said + Says(s, acts[0], i) + rest == t.said + (Says(s, acts[0], i) + rest);
    }
  }

  lemma ReachedIsTold(limit: nat, window: nat, acts: seq<Action>, i: nat)
    requires Reached(limit, window, acts).agent.queueOpen
    ensures
      var start := Start(limit, window);
      ToldAll(Reached(limit, window, acts), i, Said(start, acts, i), RefusedIn(start, acts, i), BrokeIn(start, acts, i), DroppedIn(start, acts, i))
  {
    var t := Story([], false, false, false);
    StartOk(limit, window);
    ExecGoes(Start(limit, window), acts, i, t);
    StoryIs(Start(limit, window), acts, i, t);
    assert [] + Said(Start(limit, window), acts, i) == Said(Start(limit, window), acts, i);
  }

  // ---- the theorem -------------------------------------------------------------------------------------

  /** In every run in which the session's queue stays open, whatever else the agent does: the answer to a
      request whose task is through is exactly one of four. A single Reset, if the local service was not
      reached. Head, data and Reset, if its answer broke off. Head, the whole answer and End, if it did
      not. Or head and data alone, and then the stream had been dropped before: the edge had reset it, or
      a payload for the local service could not be delivered. */
  lemma EveryRequestIsAnswered(limit: nat, window: nat, acts: seq<Action>, i: nat)
    ensures
      var s := Reached(limit, window, acts);
      var start := Start(limit, window);
      var said := Said(start, acts, i);
      s.agent.queueOpen && i in s.agent.streams && (s.agent.streams[i].serve.Dropping? || s.agent.streams[i].serve.Finished?) ==>
        var g := s.agent.streams[i];
        if RefusedIn(start, acts, i) then said == [Frame.Reset(i)]
        else if BrokeIn(start, acts, i) then Answer(i, said, g.sent, [Frame.Reset(i)])
        else if g.pump.Ended? then Answer(i, said, g.body, [Frame.End(i)])
        else DroppedIn(start, acts, i) && Answer(i, said, g.sent, [])
  {
    var s := Reached(limit, window, acts);
    ReachedOk(limit, window, acts, i);
    if s.agent.queueOpen {
      ReachedIsTold(limit, window, acts, i);
      if i in s.agent.streams && s.agent.streams[i].pump.Ended? {
        EndedIsWhole(window, ViewOf(s, i));
      }
    }
  }

  lemma EndedIsWhole(window: nat, v: View)
    requires LaneInv(window, DownLane(window, v)) && v.ag.Some? && v.ag.value.pump.Ended?
    ensures v.ag.value.sent == v.ag.value.body
  {
    assert PumpOk(DownLane(window, v));
  }

  /** Before that nothing is missing either: no frame until the service has answered, then its head, and
      what has been sent of its body, in order. */
  lemma AnswersAreInOrder(limit: nat, window: nat, acts: seq<Action>, i: nat)
    ensures
      var s := Reached(limit, window, acts);
      var said := Said(Start(limit, window), acts, i);
      s.agent.queueOpen ==>
        if i !in s.agent.streams then said == []
        else
          var g := s.agent.streams[i];
          && (g.serve.Requesting? || g.serve.HeadReady? ==> said == [])
          && (g.serve.Responding? ==> Answer(i, said, g.sent, []))
          && (g.serve.Reporting? ==> RefusedIn(Start(limit, window), acts, i) || BrokeIn(Start(limit, window), acts, i))
  {
    if Reached(limit, window, acts).agent.queueOpen {
      ReachedIsTold(limit, window, acts, i);
    }
  }

  // ---- and each of them is given -------------------------------------------------------------------------

  lemma {:induction false} RefusedMore(s: Sys, acts: seq<Action>, act: Action, i: nat)
    ensures RefusedIn(s, acts + [act], i) <==> RefusedIn(s, acts, i) || Refuses(Exec(s, acts), act, i)
    decreases |acts|
  {
    if acts == [] {
      assert [] + [act] == [act] && [act][1..] == [];
    } else {
      assert (acts + [act])[1..] == acts[1..] + [act];
      RefusedMore(Next(s, acts[0]), acts[1..], act, i);
    }
  }

  /** Both sides hold stream 1, and the agent's task has come as far as `g` says. */
  function Task(window: nat, g: A.AgentStream, up: seq<Frame>): Sys {
    var s := Joined(window);
    s.(agent := s.agent.(streams := map[1 := g]), up := up)
  }

  lemma TaskMoves(window: nat, g: A.AgentStream, up: seq<Frame>, step: A.AgentLocal, g': A.AgentStream, out: seq<Frame>)
    requires A.LocalMove(1, true, g, step) == Some(A.AgentMove(g', out))
    ensures Next(Task(window, g, up), AgentActs(A.Do(1, step))) == Task(window, g', up + out)
  {
    assert Next(Task(window, g, up), AgentActs(A.Do(1, step))).agent.streams == map[1 := g'];
  }

  lemma TaskOn(window: nat, acts: seq<Action>, g: A.AgentStream, up: seq<Frame>, step: A.AgentLocal, g': A.AgentStream, out: seq<Frame>)
      returns (more: seq<Action>)
    requires Reached(0, window, acts) == Task(window, g, up) && A.LocalMove(1, true, g, step) == Some(A.AgentMove(g', out))
    ensures more == acts + [AgentActs(A.Do(1, step))] && Reached(0, window, more) == Task(window, g', up + out)
    ensures RefusedIn(Start(0, window), more, 1) <==>
      RefusedIn(Start(0, window), acts, 1) || (step.LocalFails? && g.serve.Requesting?)
  {
    TaskMoves(window, g, up, step, g', out);
    more := acts + [AgentActs(A.Do(1, step))];
    Further(window, acts, Task(window, g, up), AgentActs(A.Do(1, step)), Task(window, g', up + out));
    RefusedMore(Start(0, window), acts, AgentActs(A.Do(1, step)), 1);
  }

  lemma TaskBegins(window: nat) returns (acts: seq<Action>)
    ensures Reached(0, window, acts) == Task(window, A.Register(window), [])
  {
    acts := JoinedIsReached(window);
  }

  /** From the start: nothing listens on the local port. The agent's whole answer is a Reset. */
  lemma RefusedExample(window: nat)
    ensures exists acts ::
      var s := Reached(0, window, acts);
      1 in s.agent.streams && s.agent.streams[1].serve.Finished? && Said(Start(0, window), acts, 1) == [Frame.Reset(1)]
  {
    var g := A.Register(window);
    var acts := TaskBegins(window);
    acts := TaskOn(window, acts, g, [], A.LocalFails, g.(serve := A.Reporting), []);
    acts := TaskOn(window, acts, g.(serve := A.Reporting), [] + [], A.SendReset, g.(serve := A.Dropping), [Frame.Reset(1)]);
    acts := TaskOn(window, acts, g.(serve := A.Dropping), [] + [] + [Frame.Reset(1)], A.DropStream,
                   g.(serve := A.Serve.Finished, inTable := false), []);
    EveryRequestIsAnswered(0, window, acts, 1);
    assert Said(Start(0, window), acts, 1) == [Frame.Reset(1)];
  }

  /** From the start: the service answers with an empty body. The agent's whole answer is a head and an End. */
  lemma AnsweredExample(window: nat)
    ensures exists acts ::
      var s := Reached(0, window, acts);
      1 in s.agent.streams && s.agent.streams[1].serve.Finished? && Answer(1, Said(Start(0, window), acts, 1), [], [Frame.End(1)])
  {
    var g := A.Register(window);
    var up := [Frame.ResponseHead(1)];
    var acts := DownloadHead(window);
    acts := TaskOn(window, acts, g.(serve := A.Responding), up, A.LocalEnd, g.(serve := A.Dropping, pump := Ended), [Frame.End(1)]);
    var told := AnswersEnd(window, acts, up + [Frame.End(1)], g.(serve := A.Dropping, pump := Ended));
    assert Answer(1, Said(Start(0, window), told, 1), [], [Frame.End(1)]);
  }

  lemma DownloadHead(window: nat) returns (acts: seq<Action>)
    ensures Reached(0, window, acts) == Task(window, A.Register(window).(serve := A.Responding), [Frame.ResponseHead(1)])
    ensures !RefusedIn(Start(0, window), acts, 1)
  {
    var g := A.Register(window);
    acts := TaskBegins(window);
    NotRefusedYet(0, window, acts, 1);
    acts := TaskOn(window, acts, g, [], A.LocalAnswers, g.(serve := A.HeadReady), []);
    acts := TaskOn(window, acts, g.(serve := A.HeadReady), [] + [], A.SendHead, g.(serve := A.Responding), [Frame.ResponseHead(1)]);
  }

  /** While the service has not been asked, it has not refused either. */
  lemma NotRefusedYet(limit: nat, window: nat, acts: seq<Action>, i: nat)
    requires Reached(limit, window, acts).agent.queueOpen && i in Reached(limit, window, acts).agent.streams
    requires Reached(limit, window, acts).agent.streams[i].serve.Requesting?
    ensures !RefusedIn(Start(limit, window), acts, i)
  {
    ReachedIsTold(limit, window, acts, i);
  }

  lemma AnswersEnd(window: nat, acts: seq<Action>, up: seq<Frame>, g: A.AgentStream) returns (more: seq<Action>)
    requires Reached(0, window, acts) == Task(window, g, up) && !RefusedIn(Start(0, window), acts, 1)
    requires g.serve.Dropping? && g.pump.Ended? && g.body == []
    ensures
      var s := Reached(0, window, more);
      && 1 in s.agent.streams && s.agent.streams[1].serve.Finished?
      && Answer(1, Said(Start(0, window), more, 1), [], [Frame.End(1)])
  {
    ReachedIsTold(0, window, acts, 1);
    more := TaskOn(window, acts, g, up, A.DropStream, g.(serve := A.Serve.Finished, inTable := false), []);
    EveryRequestIsAnswered(0, window, more, 1);
    ReachedIsTold(0, window, more, 1);
    BrokeIsNotEnded(window, more);
  }

  lemma BrokeIsNotEnded(window: nat, acts: seq<Action>)
    requires
      var s := Reached(0, window, acts);
      s.agent.queueOpen && 1 in s.agent.streams && s.agent.streams[1].serve.Finished? && s.agent.streams[1].pump.Ended?
    ensures !BrokeIn(Start(0, window), acts, 1)
  {
    ReachedIsTold(0, window, acts, 1);
  }
}
