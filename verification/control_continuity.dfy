/** How a session keeps a tunnel up through any run of the control plane: as long as it refreshes the
    lease in time and does not give the key up, whatever else happens and whichever calls fail. */
module ControlContinuity {
  import opened Wrappers
  import opened Codec
  import opened Lease
  import opened Routing
  import opened Registration
  import opened Control
  import opened ControlRuns
  import opened ControlTheorems
  import opened ControlCalls
  import opened ControlExpiry

  function NextDeadline(c: Control, a: Action, id: string, k: string, d: nat): nat {
    if Extends(c, a, id, k) then c.now + c.ttl else d
  }

  /** The session is connected, lists the tunnel for the key, is not about to drop it or to release
      the key, and holds the lease up to a deadline still to come. */
  ghost predicate Serving(c: Control, id: string, t: string, k: string, d: nat) {
    && id in c.sessions
    && Holds(c.sessions[id], t, k)
    && HasUntil(c.table, k, id, d) && c.now < d
  }

  predicate Holds(s: Session, t: string, k: string) {
    && s.phase.Active? && !(s.loop.Releasing? && s.loop.key == k)
    && t in s.tunnels && s.tunnels[t] == k
    && !(s.beat.Lost? && s.beat.tunnelId == t)
  }

  /** The step lets the deadline in force pass, or is the session's own: it hangs up, or closes this
      tunnel or another one for the same key. Nothing else counts, no failed call either. */
  predicate LetsGo(c: Control, a: Action, id: string, k: string, d: nat)
    requires id in c.sessions
  {
    var s := c.sessions[id];
    match a
    case Tick(time) => time >= d
    case HangUp(j) => j == id && s.loop.Idle?
    case CloseTunnel(j, t) => j == id && s.loop.Idle? && t in s.tunnels && s.tunnels[t] == k
    case _ => Extends(c, a, id, k) && c.ttl == 0
  }

  // ---- one step ------------------------------------------------------------------------------------

  lemma StaleIsOver(c: Control, k: string, id: string)
    requires CtlInv(c) && (k, id) in c.stale
    ensures id in c.sessions && c.sessions[id].phase.Ended?
  {
    assert (k, id).1 in c.sessions;
  }

  /** Only the session itself releases its key while it is connected. */
  lemma NobodyReleases(c: Control, a: Action, id: string, t: string, k: string, d: nat)
    requires CtlInv(c) && Serving(c, id, t, k, d)
    ensures OpOf(c, a) != Some(Op.Release(k, id))
  {
    if a.CleanUp? && (a.key, a.session) in c.stale {
      StaleIsOver(c, a.key, a.session);
    }
  }

  lemma CallRefreshes(c: Control, a: Action, id: string, t: string, k: string, d: nat)
    requires CtlInv(c) && Serving(c, id, t, k, d) && OpOf(c, a).Some?
    ensures HasUntil(Next(c, a).table, k, id, NextDeadline(c, a, id, k, d))
  {
    var op := OpOf(c, a).value;
    NobodyReleases(c, a, id, t, k, d);
    NextResumes(c, a);
    OpTtl(c, a);
    HolderIsGranted(c.table, Event(c.now, c.now, op), k, id, d);
    RefreshExtends(c.table, Event(c.now, c.now, op), k, id, d);
  }

  lemma LeaseLasts(c: Control, a: Action, id: string, t: string, k: string, d: nat)
    requires CtlInv(c) && Serving(c, id, t, k, d)
    ensures HasUntil(Next(c, a).table, k, id, NextDeadline(c, a, id, k, d))
  {
    if OpOf(c, a).Some? {
      CallRefreshes(c, a, id, t, k, d);
    } else {
      NextWithout(c, a);
    }
  }

  /** The renewal of a listed tunnel answers that the key is the session's, so it is not dropped. */
  lemma RenewHolds(c: Control, id: string, tunnelId: string, outcome: Outcome, t: string, k: string, d: nat)
    requires CtlInv(c) && Serving(c, id, t, k, d)
    ensures Holds(StepRenew(c, id, c.sessions[id], tunnelId, outcome).sessions[id], t, k)
  {
    var s := c.sessions[id];
    if s.beat.Round? && tunnelId == t && t in s.beat.todo {
      assert s.beat.todo[t] == k;
      HolderIsSeen(c.table, Event(c.now, c.now, Op.Renew(k, id, c.ttl)), k, id, d);
    }
  }

  lemma RequestHolds(c: Control, a: Action, id: string, t: string, k: string)
    requires id in c.sessions && Holds(c.sessions[id], t, k) && (a.Request? || a.DoRelease?)
    ensures Holds(SessionStep(c, id, c.sessions[id], a).sessions[id], t, k)
  {
  }

  lemma ClaimHolds(c: Control, id: string, outcome: Outcome, t: string, k: string)
    requires id in c.sessions && Holds(c.sessions[id], t, k)
    ensures Holds(StepClaim(c, id, c.sessions[id], outcome).sessions[id], t, k)
  {
  }

  /** An insertion is of another tunnel, so it overwrites nothing. */
  lemma InsertHolds(c: Control, id: string, t: string, k: string)
    requires CtlInv(c) && id in c.sessions && Holds(c.sessions[id], t, k)
    ensures Holds(StepInsert(c, id, c.sessions[id]).sessions[id], t, k)
  {
    assert SessionOk(c.base, c.sessions[id]);
  }

  lemma ClosingHolds(c: Control, a: Action, id: string, t: string, k: string, d: nat)
    requires Serving(c, id, t, k, d) && a.CloseTunnel? && a.id == id
    ensures Holds(SessionStep(c, id, c.sessions[id], a).sessions[id], t, k) <==> !LetsGo(c, a, id, k, d)
  {
  }

  lemma DisconnectHolds(c: Control, a: Action, id: string, t: string, k: string, d: nat)
    requires Serving(c, id, t, k, d) && (a.HangUp? || a.TeardownRelease? || a.FinishTeardown?) && a.id == id
    ensures Holds(SessionStep(c, id, c.sessions[id], a).sessions[id], t, k) <==> !LetsGo(c, a, id, k, d)
  {
  }

  lemma BeatHolds(c: Control, a: Action, id: string, t: string, k: string, d: nat)
    requires Serving(c, id, t, k, d) && (a.Beat? || a.DropLost? || a.StopBeat?) && a.id == id
    ensures Holds(SessionStep(c, id, c.sessions[id], a).sessions[id], t, k)
  {
  }

  /** The session's own steps leave the tunnel as it is, but those that let it go. */
  lemma OwnHolds(c: Control, a: Action, id: string, t: string, k: string, d: nat)
    requires CtlInv(c) && Serving(c, id, t, k, d) && OfOneSession(a) && a.id == id
    ensures Holds(Next(c, a).sessions[id], t, k) <==> (a.HangUp? || a.CloseTunnel? ==> !LetsGo(c, a, id, k, d))
  {
    match a
    case CloseTunnel(_, _) => ClosingHolds(c, a, id, t, k, d);
    case HangUp(_) => DisconnectHolds(c, a, id, t, k, d);
    case TeardownRelease(_, _, _) => DisconnectHolds(c, a, id, t, k, d);
    case FinishTeardown(_) => DisconnectHolds(c, a, id, t, k, d);
    case RenewOne(_, tunnelId, outcome) => RenewHolds(c, id, tunnelId, outcome, t, k, d);
    case Beat(_) => BeatHolds(c, a, id, t, k, d);
    case DropLost(_) => BeatHolds(c, a, id, t, k, d);
    case StopBeat(_) => BeatHolds(c, a, id, t, k, d);
    case DoClaim(_, outcome) => ClaimHolds(c, id, outcome, t, k);
    case DoInsert(_) => InsertHolds(c, id, t, k);
    case _ => RequestHolds(c, a, id, t, k);
  }

  lemma StepsHold(c: Control, a: Action, id: string, t: string, k: string, d: nat)
    requires CtlInv(c) && Serving(c, id, t, k, d)
    ensures id in Next(c, a).sessions
    ensures Holds(Next(c, a).sessions[id], t, k) <==> (a.HangUp? || a.CloseTunnel? ==> !LetsGo(c, a, id, k, d))
  {
    if OfOneSession(a) && a.id == id {
      OwnStays(c, a, id);
      OwnHolds(c, a, id, t, k, d);
    } else {
      OthersLeave(c, a, id);
    }
  }

  lemma ClockHolds(c: Control, a: Action, id: string, k: string, d: nat)
    requires id in c.sessions && c.now < d
    ensures Next(c, a).now < NextDeadline(c, a, id, k, d) <==> (a.HangUp? || a.CloseTunnel? || !LetsGo(c, a, id, k, d))
  {
    ClockMoves(c, a);
    if OpOf(c, a).None? && !a.Tick? {
      OnlyTicks(c, a);
    }
  }

  /** A step keeps a tunnel up if and only if it does not let it go. */
  lemma NextServes(c: Control, a: Action, id: string, t: string, k: string, d: nat)
    requires CtlInv(c) && Serving(c, id, t, k, d)
    ensures Serving(Next(c, a), id, t, k, NextDeadline(c, a, id, k, d)) <==> !LetsGo(c, a, id, k, d)
  {
    LeaseLasts(c, a, id, t, k, d);
    StepsHold(c, a, id, t, k, d);
    ClockHolds(c, a, id, k, d);
  }

  // ---- whole runs ----------------------------------------------------------------------------------

  /** No step of the run lets the tunnel go. */
  predicate Timely(c: Control, acts: seq<Action>, id: string, k: string, d: nat)
    requires id in c.sessions
    decreases |acts|
  {
    acts == [] || (
      && !LetsGo(c, acts[0], id, k, d)
      && id in Next(c, acts[0]).sessions
      && Timely(Next(c, acts[0]), acts[1..], id, k, NextDeadline(c, acts[0], id, k, d)))
  }

  function DeadlineAfter(c: Control, acts: seq<Action>, id: string, k: string, d: nat): nat
    decreases |acts|
  {
    if acts == [] then d else DeadlineAfter(Next(c, acts[0]), acts[1..], id, k, NextDeadline(c, acts[0], id, k, d))
  }

  /** The tunnel is up at the start, at the end and at every point between. */
  ghost predicate UpThroughout(c: Control, acts: seq<Action>, id: string, t: string, k: string, d: nat)
    decreases |acts|
  {
    && Serving(c, id, t, k, d)
    && (acts == [] || UpThroughout(Next(c, acts[0]), acts[1..], id, t, k, NextDeadline(c, acts[0], id, k, d)))
  }

  lemma {:induction false} TimelyIsUp(c: Control, acts: seq<Action>, id: string, t: string, k: string, d: nat)
    requires CtlInv(c) && Serving(c, id, t, k, d)
    ensures UpThroughout(c, acts, id, t, k, d) <==> Timely(c, acts, id, k, d)
    ensures Timely(c, acts, id, k, d) ==> Serving(Exec(c, acts), id, t, k, DeadlineAfter(c, acts, id, k, d))
    decreases |acts|
  {
    if acts != [] {
      NextKeeps(c, acts[0]);
      NextServes(c, acts[0], id, t, k, d);
      if !LetsGo(c, acts[0], id, k, d) {
        TimelyIsUp(Next(c, acts[0]), acts[1..], id, t, k, NextDeadline(c, acts[0], id, k, d));
      }
    }
  }

  /** Continuity, from any reachable state in which a tunnel is up: it is up at every point of what
      follows, whatever other sessions, ingresses and failing calls do, if and only if each refresh
      of its lease comes before the deadline set by the one before and its session neither hangs up
      nor closes a tunnel for the key. */
  lemma TunnelStaysUp(base: string, ttl: nat, before: seq<Action>, acts: seq<Action>, id: string, t: string, k: string, d: nat)
    requires Serving(Reached(base, ttl, before), id, t, k, d)
    ensures
      var c := Reached(base, ttl, before);
      && (UpThroughout(c, acts, id, t, k, d) <==> Timely(c, acts, id, k, d))
      && (Timely(c, acts, id, k, d) ==> Serving(Exec(c, acts), id, t, k, DeadlineAfter(c, acts, id, k, d)))
  {
    ReachedOk(base, ttl, before);
    TimelyIsUp(Reached(base, ttl, before), acts, id, t, k, d);
  }

  /** While a tunnel is up, every lookup of its key names its session and node, that session's
      renewals and claims succeed, everybody else's claims are refused in its name, and no ingress
      is about to clean it up. */
  lemma UpIsSeen(base: string, ttl: nat, acts: seq<Action>, id: string, t: string, k: string, d: nat)
    requires Serving(Reached(base, ttl, acts), id, t, k, d)
    ensures
      var c := Reached(base, ttl, acts);
      var record := c.table[k].record;
      && record.routingKey == k && record.sessionId == id && record.nodeId == c.sessions[id].node
      && Call(c, Op.Lookup(k)).1 == Found(Some(record))
      && Call(c, Op.Renew(k, id, c.ttl)).1 == Renewed(true)
      && (k, id) !in c.stale
    ensures
      var c := Reached(base, ttl, acts);
      forall r: RouteRecord | r.routingKey == k ::
        Call(c, Op.Claim(r, c.ttl)).1 == Claimed(if r.sessionId == id then Acquired else Taken(c.table[k].record))
  {
    ReachedOk(base, ttl, acts);
    var c := Reached(base, ttl, acts);
    assert LeaseOk(c, k);
    if (k, id) in c.stale {
      StaleIsOver(c, k, id);
    }
  }

  /** A tunnel is up from the moment it is inserted, if the lease claimed for it still runs. */
  lemma InsertedIsUp(base: string, ttl: nat, acts: seq<Action>, id: string, d: nat)
    ensures
      var c := Reached(base, ttl, acts);
      id in c.sessions && c.sessions[id].loop.Inserting? ==>
        var (t, k) := (c.sessions[id].loop.tunnelId, c.sessions[id].loop.key);
        HasUntil(c.table, k, id, d) && c.now < d ==> Serving(Next(c, DoInsert(id)), id, t, k, d)
  {
    ReachedOk(base, ttl, acts);
  }

  // ---- two tunnels for one key -----------------------------------------------------------------------

  lemma SecondClaim(c: Control, id: string, t: string, k: string, d: nat, spec: TunnelSpec, twin: string, generated: string)
    requires Serving(c, id, t, k, d) && CanRequest(c.sessions[id], c.base, spec, twin, generated, k)
    ensures
      var s := c.sessions[id];
      Next(c, Request(id, spec, twin, generated)) == With(c, id, s.(used := s.used[twin := k], loop := Claiming(twin, k)))
  {
  }

  /** The session may register the key once more, as the tunnel `twin`. */
  predicate CanRequest(s: Session, base: string, spec: TunnelSpec, twin: string, generated: string, k: string) {
    && s.phase.Active? && s.loop.Idle? && twin !in s.used && Generated(generated)
    && (s.principal.limits.maxTunnels > 0 ==> |s.tunnels| < s.principal.limits.maxTunnels)
    && var key := Resolve(s.principal, base, generated, spec);
    key.Success? && StorageKey(key.value) == k
  }

  /** Claiming a key that the session holds succeeds, and the second tunnel is listed beside the first. */
  lemma TwinIsListed(c: Control, id: string, t: string, twin: string, k: string, d: nat)
    requires CtlInv(c) && Serving(c, id, t, k, d) && c.sessions[id].loop == Claiming(twin, k)
    ensures
      var s := c.sessions[id];
      var c' := Next(Next(c, DoClaim(id, Answered)), DoInsert(id));
      && c'.sessions == c.sessions[id := s.(tunnels := s.tunnels[twin := k], loop := Idle)]
      && HasUntil(c'.table, k, id, c.now + c.ttl) && c'.now == c.now
  {
    var s := c.sessions[id];
    HolderIsSeen(c.table, Event(c.now, c.now, Op.Claim(RecordOf(c, id, s, twin, k), c.ttl)), k, id, d);
    PutTwice(c.sessions, id, s.(loop := Inserting(twin, k)), s.(tunnels := s.tunnels[twin := k], loop := Idle));
  }

  /** Closing it releases the key that the first one lives on. */
  lemma TwinReleases(c: Control, id: string, twin: string, k: string)
    requires id in c.sessions && c.sessions[id].phase.Active? && c.sessions[id].loop.Idle?
    requires twin in c.sessions[id].tunnels && c.sessions[id].tunnels[twin] == k
    ensures
      var s := c.sessions[id];
      var c' := Next(Next(c, CloseTunnel(id, twin)), DoRelease(id, Answered));
      && c'.sessions == c.sessions[id := s.(tunnels := s.tunnels - {twin})]
      && c'.table == Call(c, Op.Release(k, id)).0 && c'.now == c.now
  {
    var s := c.sessions[id];
    PutTwice(c.sessions, id, Closed(s, twin), s.(tunnels := s.tunnels - {twin}));
  }

  /** A release leaves nothing of a key that its session has, run out or not. */
  lemma ReleasedIsGone(c: Control, k: string, id: string)
    requires Owned(c.table, k, id)
    ensures k !in Call(c, Op.Release(k, id)).0
  {
  }

  lemma AbsentIsNotFound(c: Control, k: string)
    requires k !in c.table
    ensures Call(c, Op.Lookup(k)).1 == Found(None)
  {
  }

  function Registered(c: Control, id: string, spec: TunnelSpec, twin: string, generated: string): Control {
    Next(Next(Next(c, Request(id, spec, twin, generated)), DoClaim(id, Answered)), DoInsert(id))
  }

  function Unregistered(c: Control, id: string, twin: string): Control {
    Next(Next(c, CloseTunnel(id, twin)), DoRelease(id, Answered))
  }

  lemma TwinRegisters(c: Control, id: string, t: string, k: string, d: nat, spec: TunnelSpec, twin: string, generated: string)
    requires CtlInv(c) && Serving(c, id, t, k, d) && CanRequest(c.sessions[id], c.base, spec, twin, generated, k)
    ensures
      var s := c.sessions[id];
      var c' := Registered(c, id, spec, twin, generated);
      && c'.sessions == c.sessions[id := s.(used := s.used[twin := k], tunnels := s.tunnels[twin := k], loop := Idle)]
      && HasUntil(c'.table, k, id, c.now + c.ttl) && c'.now == c.now
  {
    var s := c.sessions[id];
    SecondClaim(c, id, t, k, d, spec, twin, generated);
    NextKeeps(c, Request(id, spec, twin, generated));
    var s1 := s.(used := s.used[twin := k], loop := Claiming(twin, k));
    TwinIsListed(With(c, id, s1), id, t, twin, k, d);
    PutTwice(c.sessions, id, s1, s1.(tunnels := s.tunnels[twin := k], loop := Idle));
  }

  lemma TwinGoes(c: Control, c2: Control, id: string, t: string, k: string, twin: string)
    requires id in c.sessions && Holds(c.sessions[id], t, k) && c.sessions[id].loop.Idle? && t != twin
    requires
      var s := c.sessions[id];
      c2.sessions == c.sessions[id := s.(used := s.used[twin := k], tunnels := s.tunnels[twin := k], loop := Idle)]
    requires Owned(c2.table, k, id)
    ensures
      var c3 := Unregistered(c2, id, twin);
      && id in c3.sessions && c3.sessions[id].phase.Active?
      && t in c3.sessions[id].tunnels && c3.sessions[id].tunnels[t] == k
      && Call(c3, Op.Lookup(k)).1 == Found(None)
  {
    TwinReleases(c2, id, twin, k);
    ReleasedIsGone(c2, k, id);
    AbsentIsNotFound(Unregistered(c2, id, twin), k);
  }

  /** So a listed tunnel is not always reachable: a session may register a key it holds a second time,
      and when it closes that tunnel the first is still listed, but its key is free. */
  lemma TwinTakesKeyAway(base: string, ttl: nat, acts: seq<Action>, id: string, t: string, k: string, d: nat,
                         spec: TunnelSpec, twin: string, generated: string)
    requires Serving(Reached(base, ttl, acts), id, t, k, d)
    requires CanRequest(Reached(base, ttl, acts).sessions[id], Reached(base, ttl, acts).base, spec, twin, generated, k)
    ensures
      var c := Unregistered(Registered(Reached(base, ttl, acts), id, spec, twin, generated), id, twin);
      && id in c.sessions && c.sessions[id].phase.Active?
      && t in c.sessions[id].tunnels && c.sessions[id].tunnels[t] == k
      && Call(c, Op.Lookup(k)).1 == Found(None)
  {
    ReachedOk(base, ttl, acts);
    var c := Reached(base, ttl, acts);
    TwinRegisters(c, id, t, k, d, spec, twin, generated);
    TwinGoes(c, Registered(c, id, spec, twin, generated), id, t, k, twin);
  }

  lemma FourSteps(c: Control, a: Action, a': Action, b: Action, b': Action)
    ensures Exec(c, [a, a', b, b']) == Next(Next(Next(Next(c, a), a'), b), b')
  {
    TwoSteps(c, a, a', [b, b']);
    TwoSteps(Next(Next(c, a), a'), b, b', []);
    assert [a, a', b, b'] == [a, a'] + [b, b'] && [b, b'] == [b, b'] + [];
  }

  lemma TwoSteps(c: Control, a: Action, a': Action, rest: seq<Action>)
    ensures Exec(c, [a, a'] + rest) == Exec(Next(Next(c, a), a'), rest)
  {
    assert ([a, a'] + rest)[1..] == [a'] + rest;
    assert ([a'] + rest)[1..] == rest;
  }

  /** A first tunnel of a new session: the request, the claim and the insertion. */
  lemma FirstTunnel(c: Control, id: string, s: Session, t: string, port: nat, drawn: string)
    requires id in c.sessions && c.sessions[id] == s && c.table == map[] && 1 <= port <= 65535 && Generated(drawn)
    requires s.phase.Active? && s.loop.Idle? && s.tunnels == map[] && s.used == map[] && s.principal.limits.maxTunnels == 0
    ensures
      var k := StorageKey(TcpPort(port));
      var c' := Registered(c, id, Tcp(port), t, drawn);
      && c'.sessions == c.sessions[id := s.(used := map[t := k], tunnels := map[t := k])]
      && HasUntil(c'.table, k, id, c.now + c.ttl) && c'.now == c.now
  {
    var k := StorageKey(TcpPort(port));
    var s1 := s.(used := map[t := k], loop := Claiming(t, k));
    assert {} + {t} == {t};
    assert Next(c, Request(id, Tcp(port), t, drawn)) == With(c, id, s1);
    ClaimedFirst(With(c, id, s1), id, t, k);
    assert s.tunnels[t := k] == map[t := k];
    PutTwice(c.sessions, id, s1, s.(used := map[t := k], tunnels := map[t := k]));
  }

  lemma ClaimedFirst(c: Control, id: string, t: string, k: string)
    requires id in c.sessions && c.table == map[] && c.sessions[id].loop == Claiming(t, k)
    ensures
      var s := c.sessions[id];
      var c' := Next(Next(c, DoClaim(id, Answered)), DoInsert(id));
      && c'.sessions == c.sessions[id := s.(tunnels := s.tunnels[t := k], loop := Idle)]
      && HasUntil(c'.table, k, id, c.now + c.ttl) && c'.now == c.now
  {
    var s := c.sessions[id];
    PutTwice(c.sessions, id, s.(loop := Inserting(t, k)), s.(tunnels := s.tunnels[t := k], loop := Idle));
  }

  /** A session connects and opens one TCP tunnel. */
  function Opening(t: string, drawn: string): seq<Action> {
    [Connect("sess", "node", "addr", Principal("acct", [], [], Limits(0, 0))), Request("sess", Tcp(80), t, drawn), DoClaim("sess", Answered), DoInsert("sess")]
  }

  lemma OpeningIsUp(base: string, t: string, drawn: string)
    requires Generated(drawn)
    ensures
      var c := Reached(base, 30, Opening(t, drawn));
      && Serving(c, "sess", t, StorageKey(TcpPort(80)), 30) && c.now == 0 && c.ttl == 30
      && c.sessions["sess"].loop.Idle? && c.sessions["sess"].beat.Resting?
      && c.sessions["sess"].used.Keys == {t} && c.sessions["sess"].principal.limits.maxTunnels == 0
  {
    var who := Principal("acct", [], [], Limits(0, 0));
    FourSteps(Init(base, 30), Connect("sess", "node", "addr", who), Request("sess", Tcp(80), t, drawn), DoClaim("sess", Answered), DoInsert("sess"));
    var s := Session("node", "addr", who, Active, map[], map[], Idle, Resting);
    FirstTunnel(With(Init(base, 30), "sess", s), "sess", s, t, 80, drawn);
    ExecYoung(Init(base, 30), Opening(t, drawn));
  }

  /** At one session and one port, from the start: the second request is accepted, and after the close
      the first tunnel is listed and not found. */
  lemma TwinExample(base: string)
    ensures
      var (drawn, k) := ("abcdefghjkmn", StorageKey(TcpPort(80)));
      var c := Reached(base, 30, Opening("tun_1", drawn));
      var c' := Unregistered(Registered(c, "sess", Tcp(80), "tun_2", drawn), "sess", "tun_2");
      && "sess" in c'.sessions && "tun_1" in c'.sessions["sess"].tunnels && c'.sessions["sess"].tunnels["tun_1"] == k
      && Call(c', Op.Lookup(k)).1 == Found(None)
  {
    var (drawn, k) := ("abcdefghjkmn", StorageKey(TcpPort(80)));
    OpeningIsUp(base, "tun_1", drawn);
    assert "tun_1"[4] != "tun_2"[4];
    TwinTakesKeyAway(base, 30, Opening("tun_1", drawn), "sess", "tun_1", k, 30, Tcp(80), "tun_2", drawn);
  }

  // ---- a round that outlives its tunnel ----------------------------------------------------------------

  lemma ClosedUnreleased(c: Control, id: string, t: string, k: string, d: nat)
    requires Serving(c, id, t, k, d) && c.sessions[id].loop.Idle?
    ensures
      var s := c.sessions[id];
      var c' := Next(Next(c, CloseTunnel(id, t)), DoRelease(id, NoEffect));
      && c'.sessions == c.sessions[id := s.(tunnels := s.tunnels - {t})]
      && c'.table == c.table && c'.now == c.now && c'.ttl == c.ttl && (k, id) in c'.unsure
  {
    var s := c.sessions[id];
    PutTwice(c.sessions, id, Closed(s, t), s.(tunnels := s.tunnels - {t}));
  }

  lemma RenewedAnyway(c: Control, id: string, t: string, k: string, d: nat)
    requires id in c.sessions && HasUntil(c.table, k, id, d) && c.now < d
    requires c.sessions[id].beat.Round? && t in c.sessions[id].beat.todo && c.sessions[id].beat.todo[t] == k
    ensures
      var c' := Next(c, RenewOne(id, t, Answered));
      && id in c'.sessions && c'.sessions[id].tunnels == c.sessions[id].tunnels && c'.unsure == c.unsure
      && HasUntil(c'.table, k, id, c.now + c.ttl)
  {
    HolderIsSeen(c.table, Event(c.now, c.now, Op.Renew(k, id, c.ttl)), k, id, d);
  }

  /** The heartbeat renews the tunnels that were listed when its round began. So when a tunnel is closed
      meanwhile and its release fails, the round gives the lease left behind another lifetime. */
  lemma RoundOutlivesClose(base: string, ttl: nat, acts: seq<Action>, id: string, t: string, k: string, d: nat)
    requires Serving(Reached(base, ttl, acts), id, t, k, d)
    requires
      var s := Reached(base, ttl, acts).sessions[id];
      s.loop.Idle? && s.beat.Round? && t in s.beat.todo
    ensures
      var c := Reached(base, ttl, acts);
      var c' := Next(Next(Next(c, CloseTunnel(id, t)), DoRelease(id, NoEffect)), RenewOne(id, t, Answered));
      && id in c'.sessions && t !in c'.sessions[id].tunnels && (k, id) in c'.unsure
      && HasUntil(c'.table, k, id, c.now + c.ttl)
  {
    ReachedOk(base, ttl, acts);
    var c := Reached(base, ttl, acts);
    assert SessionOk(c.base, c.sessions[id]);
    ClosedUnreleased(c, id, t, k, d);
    RenewedAnyway(Next(Next(c, CloseTunnel(id, t)), DoRelease(id, NoEffect)), id, t, k, d);
  }

  lemma RoundBegins(c: Control, id: string, t: string, k: string, d: nat, time: nat)
    requires Serving(c, id, t, k, d) && c.sessions[id].loop.Idle? && c.sessions[id].beat.Resting? && c.now <= time < d
    ensures
      var c' := Next(Next(c, Beat(id)), Tick(time));
      && Serving(c', id, t, k, d) && c'.now == time && c'.ttl == c.ttl
      && c'.sessions[id].loop.Idle? && c'.sessions[id].beat == Round(c.sessions[id].tunnels)
  {
  }

  lemma {:induction false} ExecTwoMore(c: Control, acts: seq<Action>, a: Action, a': Action)
    ensures Exec(c, acts + [a, a']) == Next(Next(Exec(c, acts), a), a')
    decreases |acts|
  {
    if acts == [] {
      TwoSteps(c, a, a', []);
      assert [] + [a, a'] == [a, a'] + [];
    } else {
      assert (acts + [a, a'])[1..] == acts[1..] + [a, a'];
      ExecTwoMore(Next(c, acts[0]), acts[1..], a, a');
    }
  }

  lemma RoundAfter(base: string, ttl: nat, acts: seq<Action>, id: string, t: string, k: string, d: nat, time: nat)
    requires
      var c := Reached(base, ttl, acts);
      Serving(c, id, t, k, d) && c.sessions[id].loop.Idle? && c.sessions[id].beat.Resting? && c.now <= time < d
    ensures
      var c := Reached(base, ttl, acts + [Beat(id), Tick(time)]);
      var c' := Next(Next(Next(c, CloseTunnel(id, t)), DoRelease(id, NoEffect)), RenewOne(id, t, Answered));
      && HasUntil(c.table, k, id, d)
      && id in c'.sessions && t !in c'.sessions[id].tunnels
      && HasUntil(c'.table, k, id, time + ttl)
  {
    ExecTwoMore(Init(base, ttl), acts, Beat(id), Tick(time));
    RoundBegins(Reached(base, ttl, acts), id, t, k, d, time);
    ExecYoung(Init(base, ttl), acts);
    RoundOutlivesClose(base, ttl, acts + [Beat(id), Tick(time)], id, t, k, d);
  }

  /** At one session and one port: claimed for 30 at time 0, closed in a round that is on its way at time
      10, and the lease runs to 40. */
  lemma RoundOutlivesExample(base: string)
    ensures
      var k := StorageKey(TcpPort(80));
      var c := Reached(base, 30, Opening("tun_1", "abcdefghjkmn") + [Beat("sess"), Tick(10)]);
      var c' := Next(Next(Next(c, CloseTunnel("sess", "tun_1")), DoRelease("sess", NoEffect)), RenewOne("sess", "tun_1", Answered));
      && HasUntil(c.table, k, "sess", 30)
      && "sess" in c'.sessions && "tun_1" !in c'.sessions["sess"].tunnels
      && HasUntil(c'.table, k, "sess", 40)
  {
    OpeningIsUp(base, "tun_1", "abcdefghjkmn");
    RoundAfter(base, 30, Opening("tun_1", "abcdefghjkmn"), "sess", "tun_1", StorageKey(TcpPort(80)), 30, 10);
  }
}
