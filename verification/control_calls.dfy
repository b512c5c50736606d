/** What registry call each step of the control plane makes, and what it does besides. */
module ControlCalls {
  import opened Wrappers
  import opened Codec
  import opened Lease
  import opened Routing
  import opened Registration
  import opened Control

  predicate OfReadLoop(a: Action) {
    a.Request? || a.DoClaim? || a.DoInsert? || a.CloseTunnel? || a.DoRelease?
  }

  predicate OfOneSession(a: Action) {
    !a.Connect? && !a.LookUp? && !a.CheckSession? && !a.CleanUp? && !a.Tick?
  }

  /** The registry call that reaches the registry in a step. */
  function OpOf(c: Control, a: Action): Option<Op> {
    match a
    case DoClaim(id, outcome) =>
      if id in c.sessions && c.sessions[id].loop.Claiming? && !outcome.NoEffect? then
        var s := c.sessions[id];
        Some(Op.Claim(RecordOf(c, id, s, s.loop.tunnelId, s.loop.key), c.ttl))
      else None
    case DoRelease(id, outcome) =>
      if id in c.sessions && c.sessions[id].loop.Releasing? && !outcome.NoEffect?
      then Some(Op.Release(c.sessions[id].loop.key, id)) else None
    case TeardownRelease(id, key, outcome) =>
      if id in c.sessions && c.sessions[id].phase.TearingDown? && key in c.sessions[id].phase.todo && !outcome.NoEffect?
      then Some(Op.Release(key, id)) else None
    case RenewOne(id, tunnelId, outcome) =>
      if id in c.sessions && c.sessions[id].beat.Round? && tunnelId in c.sessions[id].beat.todo && !outcome.NoEffect?
      then Some(Op.Renew(c.sessions[id].beat.todo[tunnelId], id, c.ttl)) else None
    case LookUp(_, key) => Some(Op.Lookup(key))
    case CleanUp(key, session, outcome) =>
      if (key, session) in c.stale && !outcome.NoEffect? then Some(Op.Release(key, session)) else None
    case _ => None
  }

  /** The rest of such a step, once the call has been answered. */
  function Resume(c: Control, a: Action, answer: Answer): Control
    requires OpOf(c, a).Some?
  {
    match a
    case DoClaim(id, outcome) =>
      var s := c.sessions[id];
      if answer != Claimed(Acquired) then With(c, id, s.(loop := Idle))
      else if outcome.ReplyLost? then With(c, id, s.(loop := Idle)).(unsure := c.unsure + {(s.loop.key, id)})
      else With(c, id, s.(loop := Inserting(s.loop.tunnelId, s.loop.key))).(unsure := c.unsure - {(s.loop.key, id)})
    case DoRelease(id, _) => With(c, id, c.sessions[id].(loop := Idle)).(unsure := c.unsure - {(c.sessions[id].loop.key, id)})
    case TeardownRelease(id, key, _) =>
      With(c, id, c.sessions[id].(phase := TearingDown(c.sessions[id].phase.todo - {key}))).(unsure := c.unsure - {(key, id)})
    case RenewOne(id, tunnelId, outcome) =>
      var s := c.sessions[id];
      var rest := s.beat.todo - {tunnelId};
      With(c, id, s.(beat := if outcome.ReplyLost? || answer == Renewed(true) then Round(rest) else Lost(tunnelId, rest)))
    case LookUp(node, key) =>
      (match answer
       case Found(Some(record)) =>
         if record.nodeId == node then c.(found := c.found + {(node, key, record.sessionId)}) else c
       case _ => c)
    case CleanUp(key, session, _) => c.(stale := c.stale - {(key, session)}, unsure := c.unsure - {(key, session)})
  }

  /** Everything but the table. */
  function Bare(c: Control): Control {
    c.(table := map[])
  }

  // ---- a step is its call and the rest --------------------------------------------------------------

  lemma SameOp(c: Control, a: Action)
    ensures OpOf(Bare(c), a) == OpOf(c, a)
  {
  }

  lemma ResumeIsBare(c: Control, a: Action, answer: Answer)
    requires OpOf(c, a).Some? && OpOf(Bare(c), a).Some?
    ensures Resume(Bare(c), a, answer) == Bare(Resume(c, a, answer))
  {
  }

  lemma ClaimResumes(c: Control, id: string, outcome: Outcome)
    requires OpOf(c, DoClaim(id, outcome)).Some?
    ensures
      var a := DoClaim(id, outcome);
      var (t, answer) := Call(c, OpOf(c, a).value);
      Next(c, a) == Resume(c, a, answer).(table := t)
  {
  }

  lemma RenewResumes(c: Control, id: string, tunnelId: string, outcome: Outcome)
    requires OpOf(c, RenewOne(id, tunnelId, outcome)).Some?
    ensures
      var a := RenewOne(id, tunnelId, outcome);
      var (t, answer) := Call(c, OpOf(c, a).value);
      Next(c, a) == Resume(c, a, answer).(table := t)
  {
  }

  lemma ReleaseResumes(c: Control, a: Action)
    requires OpOf(c, a).Some? && (a.DoRelease? || a.TeardownRelease? || a.CleanUp?)
    ensures
      var (t, answer) := Call(c, OpOf(c, a).value);
      Next(c, a) == Resume(c, a, answer).(table := t)
  {
  }

  lemma LookUpResumes(c: Control, node: string, key: string)
    ensures
      var a := LookUp(node, key);
      Next(c, a) == Resume(c, a, Call(c, Op.Lookup(key)).1)
  {
  }

  /** With a call: the table is what the call makes of it, but that a lookup writes nothing back. */
  lemma NextResumes(c: Control, a: Action)
    requires OpOf(c, a).Some?
    ensures
      var (t, answer) := Call(c, OpOf(c, a).value);
      Next(c, a) == Resume(c, a, answer).(table := if a.LookUp? then c.table else t)
  {
    match a
    case DoClaim(id, outcome) => ClaimResumes(c, id, outcome);
    case RenewOne(id, tunnelId, outcome) => RenewResumes(c, id, tunnelId, outcome);
    case LookUp(node, key) => LookUpResumes(c, node, key);
    case _ => ReleaseResumes(c, a);
  }

  /** Without one: the table is left alone and not looked at. */
  lemma SharedWithout(c: Control, a: Action)
    requires OpOf(c, a).None? && !OfOneSession(a)
    ensures Next(Bare(c), a) == Bare(Next(c, a)) && Next(c, a).table == c.table
  {
  }

  lemma ReadLoopWithout(c: Control, a: Action)
    requires OpOf(c, a).None? && OfReadLoop(a)
    ensures Next(Bare(c), a) == Bare(Next(c, a)) && Next(c, a).table == c.table
  {
  }

  lemma OtherWithout(c: Control, a: Action)
    requires OpOf(c, a).None? && OfOneSession(a) && !OfReadLoop(a)
    ensures Next(Bare(c), a) == Bare(Next(c, a)) && Next(c, a).table == c.table
  {
  }

  lemma NextWithout(c: Control, a: Action)
    requires OpOf(c, a).None?
    ensures Next(Bare(c), a) == Bare(Next(c, a)) && Next(c, a).table == c.table
  {
    if !OfOneSession(a) {
      SharedWithout(c, a);
    } else if OfReadLoop(a) {
      ReadLoopWithout(c, a);
    } else {
      OtherWithout(c, a);
    }
  }

  lemma ClockMoves(c: Control, a: Action)
    ensures Next(c, a).now >= c.now && Next(c, a).ttl == c.ttl
    ensures OpOf(c, a).Some? ==> Next(c, a).now == c.now
  {
    if OpOf(c, a).Some? {
      NextResumes(c, a);
    } else {
      NextClock(c, a);
    }
  }

  lemma NextClock(c: Control, a: Action)
    ensures Next(c, a).now >= c.now && Next(c, a).ttl == c.ttl
  {
  }

  lemma OpTtl(c: Control, a: Action)
    requires OpOf(c, a).Some?
    ensures OpOf(c, a).value.Claim? || OpOf(c, a).value.Renew? ==> OpOf(c, a).value.ttl == c.ttl
    ensures OpOf(c, a).value.Lookup? <==> a.LookUp?
  {
  }

  lemma OnlyTicks(c: Control, a: Action)
    requires !a.Tick?
    ensures Next(c, a).now == c.now
  {
  }

  // ---- sessions and their names --------------------------------------------------------------------

  /** The step leaves all nodes and principals, and takes up a tunnel id only in a request. */
  ghost predicate NamesKept(c: Control, id: string, a: Action)
    requires id in c.sessions
  {
    var s, c' := c.sessions[id], SessionStep(c, id, c.sessions[id], a);
    && c'.sessions.Keys == c.sessions.Keys
    && (forall j | j in c.sessions && j != id :: c'.sessions[j] == c.sessions[j])
    && c'.sessions[id].node == s.node && c'.sessions[id].addr == s.addr && c'.sessions[id].principal == s.principal
    && (c'.sessions[id].loop.Claiming? || c'.sessions[id].loop.Inserting? ==>
          || ((s.loop.Claiming? || s.loop.Inserting?) && c'.sessions[id].loop.tunnelId == s.loop.tunnelId)
          || (a.Request? && c'.sessions[id].loop.tunnelId == a.tunnelId))
  }

  lemma RequestNames(c: Control, id: string, a: Action)
    requires id in c.sessions && a.Request?
    ensures NamesKept(c, id, a)
  {
  }

  lemma ClaimNames(c: Control, id: string, a: Action)
    requires id in c.sessions && a.DoClaim?
    ensures NamesKept(c, id, a)
  {
  }

  lemma InsertNames(c: Control, id: string, a: Action)
    requires id in c.sessions && (a.DoInsert? || a.CloseTunnel?)
    ensures NamesKept(c, id, a)
  {
  }

  lemma ReleaseNames(c: Control, id: string, a: Action)
    requires id in c.sessions && a.DoRelease?
    ensures NamesKept(c, id, a)
  {
  }

  lemma TeardownNames(c: Control, id: string, a: Action)
    requires id in c.sessions && a.TeardownRelease?
    ensures NamesKept(c, id, a)
  {
  }

  lemma ClosingNames(c: Control, id: string, a: Action)
    requires id in c.sessions && (a.HangUp? || a.FinishTeardown?)
    ensures NamesKept(c, id, a)
  {
  }

  lemma RenewNames(c: Control, id: string, a: Action)
    requires id in c.sessions && a.RenewOne?
    ensures NamesKept(c, id, a)
  {
  }

  lemma RoundNames(c: Control, id: string, a: Action)
    requires id in c.sessions && (a.Beat? || a.DropLost? || a.StopBeat?)
    ensures NamesKept(c, id, a)
  {
  }

  lemma SharedNames(c: Control, id: string, a: Action)
    requires id in c.sessions && !OfOneSession(a)
    ensures NamesKept(c, id, a)
  {
  }

  lemma StepNames(c: Control, id: string, a: Action)
    requires id in c.sessions
    ensures NamesKept(c, id, a)
  {
    match a
    case Request(_, _, _, _) => RequestNames(c, id, a);
    case DoClaim(_, _) => ClaimNames(c, id, a);
    case DoInsert(_) => InsertNames(c, id, a);
    case CloseTunnel(_, _) => InsertNames(c, id, a);
    case DoRelease(_, _) => ReleaseNames(c, id, a);
    case TeardownRelease(_, _, _) => TeardownNames(c, id, a);
    case RenewOne(_, _, _) => RenewNames(c, id, a);
    case HangUp(_) => ClosingNames(c, id, a);
    case FinishTeardown(_) => ClosingNames(c, id, a);
    case Beat(_) => RoundNames(c, id, a);
    case DropLost(_) => RoundNames(c, id, a);
    case StopBeat(_) => RoundNames(c, id, a);
    case _ => SharedNames(c, id, a);
  }

  lemma OthersLeave(c: Control, a: Action, id: string)
    requires id in c.sessions && (OfOneSession(a) ==> a.id != id)
    ensures id in Next(c, a).sessions && Next(c, a).sessions[id] == c.sessions[id]
  {
    if OfOneSession(a) && a.id in c.sessions {
      StepNames(c, a.id, a);
    }
  }

  lemma OwnStays(c: Control, a: Action, id: string)
    requires id in c.sessions && OfOneSession(a) && a.id == id
    ensures id in Next(c, a).sessions
  {
    StepNames(c, id, a);
  }
}
