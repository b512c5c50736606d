/** The users of the routing table: read loops that register and close tunnels, heartbeats that
    renew, teardown, and the ingress that cleans up after sessions that are gone. Any number of
    sessions on any number of nodes, all steps interleaved, and every registry call able to fail. */
module Control {
  import opened Wrappers
  import opened Codec
  import opened Lease
  import opened Routing
  import opened Registration

  /** A call is answered; or it fails without effect; or it takes effect and the reply is lost. */
  datatype Outcome = Answered | NoEffect | ReplyLost

  /** The read loop between two awaits. */
  datatype ReadLoop =
    | Idle
    | Claiming(tunnelId: string, key: string)
    | Inserting(tunnelId: string, key: string)   // Acquired, not yet in the session's table
    | Releasing(key: string)                     // removed from the table, not yet released

  /** The heartbeat: what is left of this round, or a tunnel it is about to drop. */
  datatype Heartbeat = Resting | Round(todo: map<string, string>) | Lost(tunnelId: string, todo: map<string, string>)

  datatype Phase = Active | TearingDown(todo: set<string>) | Ended

  datatype Session = Session(
    node: string,
    addr: string,                   // of the node, for its siblings
    principal: Principal,
    phase: Phase,
    tunnels: map<string, string>,   // tunnel id to storage key
    used: map<string, string>,      // tunnel ids ever generated, with the key each was asked for
    loop: ReadLoop,
    beat: Heartbeat
  )

  datatype Control = Control(
    base: string,
    ttl: nat,
    now: nat,
    table: Table,
    sessions: map<string, Session>,             // every session there has been
    found: set<(string, string, string)>,       // node, key, session: looked up by an ingress
    stale: set<(string, string)>,               // key, session: found to be gone, about to be released
    unsure: set<(string, string)>               // key, session: left behind by a failed call, and not cleared since
  )

  datatype Action =
    | Connect(id: string, node: string, addr: string, principal: Principal)
    | Request(id: string, spec: TunnelSpec, tunnelId: string, generated: string)
    | DoClaim(id: string, outcome: Outcome)
    | DoInsert(id: string)
    | CloseTunnel(id: string, tunnelId: string)
    | DoRelease(id: string, outcome: Outcome)
    | HangUp(id: string)
    | TeardownRelease(id: string, key: string, outcome: Outcome)
    | FinishTeardown(id: string)
    | Beat(id: string)
    | RenewOne(id: string, tunnelId: string, outcome: Outcome)
    | DropLost(id: string)
    | StopBeat(id: string)
    | LookUp(node: string, key: string)
    | CheckSession(node: string, key: string, session: string)
    | CleanUp(key: string, session: string, outcome: Outcome)
    | Tick(time: nat)

  function Init(base: string, ttl: nat): Control {
    Control(base, ttl, 0, map[], map[], {}, {}, {})
  }

  /** The session manager of the session's node knows it until teardown is through. */
  predicate Present(s: Session) {
    !s.phase.Ended?
  }

  function Call(c: Control, op: Op): (Table, Answer) {
    Ideal(c.table, Event(c.now, c.now, op))
  }

  function RecordOf(c: Control, id: string, s: Session, tunnelId: string, key: string): RouteRecord {
    RouteRecord(key, s.node, s.addr, id, tunnelId, s.principal.accountId)
  }

  function Keys(tunnels: map<string, string>): set<string> {
    set t | t in tunnels :: tunnels[t]
  }

  function With(c: Control, id: string, s: Session): Control {
    c.(sessions := c.sessions[id := s])
  }

  function StepRequest(c: Control, id: string, s: Session, spec: TunnelSpec, tunnelId: string, generated: string): Control {
    if !s.phase.Active? || !s.loop.Idle? || tunnelId in s.used || !Generated(generated) then c
    else if s.principal.limits.maxTunnels > 0 && |s.tunnels| >= s.principal.limits.maxTunnels then c
    else match Resolve(s.principal, c.base, generated, spec)
      case Failure(_) => c
      case Success(key) =>
        With(c, id, s.(used := s.used[tunnelId := StorageKey(key)], loop := Claiming(tunnelId, StorageKey(key))))
  }

  function StepClaim(c: Control, id: string, s: Session, outcome: Outcome): Control {
    if !s.loop.Claiming? then c
    else
      var key := s.loop.key;
      var (table, answer) := Call(c, Op.Claim(RecordOf(c, id, s, s.loop.tunnelId, key), c.ttl));
      if outcome.NoEffect? then With(c, id, s.(loop := Idle))
      else if answer != Claimed(Acquired) then With(c, id, s.(loop := Idle)).(table := table)
      else if outcome.ReplyLost? then With(c, id, s.(loop := Idle)).(table := table, unsure := c.unsure + {(key, id)})
      else With(c, id, s.(loop := Inserting(s.loop.tunnelId, key))).(table := table, unsure := c.unsure - {(key, id)})
  }

  function StepInsert(c: Control, id: string, s: Session): Control {
    if !s.loop.Inserting? then c
    else With(c, id, s.(tunnels := s.tunnels[s.loop.tunnelId := s.loop.key], loop := Idle))
  }

  function StepClose(c: Control, id: string, s: Session, tunnelId: string): Control {
    if !s.phase.Active? || !s.loop.Idle? || tunnelId !in s.tunnels then c
    else With(c, id, s.(tunnels := s.tunnels - {tunnelId}, loop := Releasing(s.tunnels[tunnelId])))
  }

  function StepRelease(c: Control, id: string, s: Session, outcome: Outcome): Control {
    if !s.loop.Releasing? then c
    else if outcome.NoEffect? then With(c, id, s.(loop := Idle)).(unsure := c.unsure + {(s.loop.key, id)})
    else With(c, id, s.(loop := Idle)).(table := Call(c, Op.Release(s.loop.key, id)).0, unsure := c.unsure - {(s.loop.key, id)})
  }

  function StepTeardown(c: Control, id: string, s: Session, key: string, outcome: Outcome): Control {
    if !s.phase.TearingDown? || key !in s.phase.todo then c
    else
      var c' := With(c, id, s.(phase := TearingDown(s.phase.todo - {key})));
      if outcome.NoEffect? then c'.(unsure := c.unsure + {(key, id)})
      else c'.(table := Call(c, Op.Release(key, id)).0, unsure := c.unsure - {(key, id)})
  }

  function StepRenew(c: Control, id: string, s: Session, tunnelId: string, outcome: Outcome): Control {
    if !s.beat.Round? || tunnelId !in s.beat.todo then c
    else
      var rest := s.beat.todo - {tunnelId};
      var (table, answer) := Call(c, Op.Renew(s.beat.todo[tunnelId], id, c.ttl));
      if outcome.NoEffect? then With(c, id, s.(beat := Round(rest)))
      else if outcome.ReplyLost? || answer == Renewed(true) then With(c, id, s.(beat := Round(rest))).(table := table)
      else With(c, id, s.(beat := Lost(tunnelId, rest))).(table := table)
  }

  function SessionStep(c: Control, id: string, s: Session, a: Action): Control {
    match a
    case Request(_, spec, tunnelId, generated) => StepRequest(c, id, s, spec, tunnelId, generated)
    case DoClaim(_, outcome) => StepClaim(c, id, s, outcome)
    case DoInsert(_) => StepInsert(c, id, s)
    case CloseTunnel(_, tunnelId) => StepClose(c, id, s, tunnelId)
    case DoRelease(_, outcome) => StepRelease(c, id, s, outcome)
    case HangUp(_) =>
      if s.phase.Active? && s.loop.Idle? then With(c, id, s.(phase := TearingDown(Keys(s.tunnels)))) else c
    case TeardownRelease(_, key, outcome) => StepTeardown(c, id, s, key, outcome)
    case FinishTeardown(_) => if s.phase == TearingDown({}) then With(c, id, s.(phase := Ended)) else c
    case Beat(_) => if s.beat.Resting? && s.phase.Active? then With(c, id, s.(beat := Round(s.tunnels))) else c
    case RenewOne(_, tunnelId, outcome) => StepRenew(c, id, s, tunnelId, outcome)
    case DropLost(_) =>
      if s.beat.Lost? then With(c, id, s.(tunnels := s.tunnels - {s.beat.tunnelId}, beat := Round(s.beat.todo))) else c
    case StopBeat(_) =>
      if s.beat.Round? && (s.beat.todo == map[] || !s.phase.Active?) then With(c, id, s.(beat := Resting)) else c
    case _ => c
  }

  function Next(c: Control, a: Action): Control {
    match a
    case Connect(id, node, addr, principal) =>
      if id in c.sessions then c
      else With(c, id, Session(node, addr, principal, Active, map[], map[], Idle, Resting))
    case LookUp(node, key) =>
      (match Call(c, Op.Lookup(key)).1
       case Found(Some(record)) =>
         if record.nodeId == node then c.(found := c.found + {(node, key, record.sessionId)}) else c
       case _ => c)
    case CheckSession(node, key, session) =>
      if (node, key, session) !in c.found then c
      else if session in c.sessions && c.sessions[session].node == node && Present(c.sessions[session])
      then c.(found := c.found - {(node, key, session)})
      else c.(found := c.found - {(node, key, session)}, stale := c.stale + {(key, session)})
    case CleanUp(key, session, outcome) =>
      if (key, session) !in c.stale then c
      else if outcome.NoEffect? then c.(stale := c.stale - {(key, session)})
      else c.(stale := c.stale - {(key, session)}, table := Call(c, Op.Release(key, session)).0, unsure := c.unsure - {(key, session)})
    case Tick(time) => if time >= c.now then c.(now := time) else c
    case _ => if a.id in c.sessions then SessionStep(c, a.id, c.sessions[a.id], a) else c
  }

  function Exec(c: Control, acts: seq<Action>): Control
    decreases |acts|
  {
    if acts == [] then c else Exec(Next(c, acts[0]), acts[1..])
  }
}
