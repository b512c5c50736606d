/** The control plane's handlers as methods that update the routing table and the sessions in place,
    each as it runs when no other task comes in between. Each is shown to perform a sequence of
    steps of `Control`, of which the theorems cover every interleaving. */
module ControlPlane {
  import opened Wrappers
  import opened Codec
  import opened Lease
  import opened Routing
  import opened Registration
  import opened Text
  import C = Control

  /** What an ingress decides about a request. */
  datatype Decision =
    | BadHost(error: HostError)
    | TableDown
    | NotFound
    | Local(session: string)
    | LoopDetected
    | HandOff(address: string)

  /** `n` registry calls of one loop, each with its own outcome. */
  type Outcomes = string -> C.Outcome

  lemma ExecThen(c: C.Control, acts: seq<C.Action>, a: C.Action)
    ensures C.Exec(c, acts + [a]) == C.Next(C.Exec(c, acts), a)
    decreases |acts|
  {
    if acts == [] {
      assert [] + [a] == [a];
      assert [a][1..] == [];
    } else {
      assert (acts + [a])[1..] == acts[1..] + [a];
      ExecThen(C.Next(c, acts[0]), acts[1..], a);
    }
  }

  /** The session lists the tunnel for the key, and the key is leased to it for one lifetime, with a record
      that names the session, its node, its account and this tunnel. */
  ghost predicate Listed(c: C.Control, c': C.Control, id: string, tunnelId: string, key: string)
    requires id in c.sessions
  {
    var s := c.sessions[id];
    && id in c'.sessions && c'.sessions[id].tunnels == s.tunnels[tunnelId := key]
    && c'.sessions[id].node == s.node && c'.sessions[id].phase == s.phase
    && key in c'.table && c'.table[key].expiresAt == c.now + c.ttl
    && var r := c'.table[key].record;
    && r.routingKey == key && r.sessionId == id && r.tunnelId == tunnelId
    && r.nodeId == s.node && r.nodeAddr == s.addr && r.accountId == s.principal.accountId
  }

  /** The steps of one renewal in a round. */
  function Renewal(id: string, t: string, outcome: C.Outcome, lost: bool): seq<C.Action> {
    if lost then [C.RenewOne(id, t, outcome), C.DropLost(id)] else [C.RenewOne(id, t, outcome)]
  }

  lemma ExecRenewal(c: C.Control, acts: seq<C.Action>, id: string, t: string, outcome: C.Outcome, lost: bool)
    ensures
      var renewed := C.Next(C.Exec(c, acts), C.RenewOne(id, t, outcome));
      C.Exec(c, acts + Renewal(id, t, outcome, lost)) == if lost then C.Next(renewed, C.DropLost(id)) else renewed
  {
    ExecThen(c, acts, C.RenewOne(id, t, outcome));
    if lost {
      ExecThen(c, acts + [C.RenewOne(id, t, outcome)], C.DropLost(id));
      assert acts + Renewal(id, t, outcome, true) == acts + [C.RenewOne(id, t, outcome)] + [C.DropLost(id)];
    }
  }

  /** The session holds none of the keys whose release took effect. */
  ghost predicate AllFree(t: Table, now: nat, id: string, keys: set<string>, outcomes: Outcomes) {
    forall k | k in keys && !outcomes(k).NoEffect? :: !Owned(Live(t, now), k, id)
  }

  /** The leases of other sessions are what they were. */
  ghost predicate OthersKept(before: Table, t: Table, now: nat, id: string) {
    forall k | k in Live(before, now) && before[k].record.sessionId != id :: k in t && t[k] == before[k]
  }

  ghost predicate Shrinks(before: Table, t: Table, now: nat, id: string) {
    && (forall k | k in Live(t, now) :: k in Live(before, now) && t[k] == before[k])
    && OthersKept(before, t, now, id)
  }

  lemma OneMoreFree(t0: Table, t: Table, t': Table, now: nat, id: string, keys: set<string>, key: string, outcomes: Outcomes)
    requires AllFree(t, now, id, keys, outcomes) && OthersKept(t0, t, now, id) && Shrinks(t, t', now, id)
    requires !outcomes(key).NoEffect? ==> !Owned(Live(t', now), key, id)
    ensures AllFree(t', now, id, keys + {key}, outcomes) && OthersKept(t0, t', now, id)
  {
  }

  /** One release of a teardown. */
  ghost predicate ReleasedOne(c: C.Control, c': C.Control, id: string, key: string, outcome: C.Outcome)
    requires id in c.sessions && c.sessions[id].phase.TearingDown?
  {
    && c'.sessions == c.sessions[id := c.sessions[id].(phase := C.TearingDown(c.sessions[id].phase.todo - {key}))]
    && (!outcome.NoEffect? ==> !Owned(Live(c'.table, c.now), key, id))
    && Shrinks(c.table, c'.table, c.now, id)
  }

  /** A teardown has come from `c0` to `c`. */
  ghost predicate TornSoFar(c0: C.Control, c: C.Control, id: string, outcomes: Outcomes)
    requires id in c0.sessions && c0.sessions[id].phase.TearingDown?
  {
    var all := c0.sessions[id].phase.todo;
    && id in c.sessions && c.sessions[id].phase.TearingDown? && c.now == c0.now
    && c.sessions[id].phase.todo <= all
    && c.sessions == c0.sessions[id := c0.sessions[id].(phase := c.sessions[id].phase)]
    && AllFree(c.table, c.now, id, all - c.sessions[id].phase.todo, outcomes)
    && OthersKept(c0.table, c.table, c.now, id)
  }

  lemma TearingGoesOn(c0: C.Control, c: C.Control, c': C.Control, id: string, outcomes: Outcomes, key: string)
    requires id in c0.sessions && c0.sessions[id].phase.TearingDown? && TornSoFar(c0, c, id, outcomes)
    requires key in c.sessions[id].phase.todo && ReleasedOne(c, c', id, key, outcomes(key)) && c'.now == c.now
    ensures TornSoFar(c0, c', id, outcomes)
  {
    var all, todo := c0.sessions[id].phase.todo, c.sessions[id].phase.todo;
    OneMoreFree(c0.table, c.table, c'.table, c.now, id, all - todo, key, outcomes);
    assert all - (todo - {key}) == (all - todo) + {key};
    PutTwice(c0.sessions, id, c.sessions[id], c'.sessions[id]);
  }

  /** What the renewals of `done` leave of the session's tunnels. */
  function Kept(tunnels: map<string, string>, done: map<string, string>, outcomes: Outcomes, held: Table, id: string): map<string, string> {
    map t | t in tunnels && !(t in done && outcomes(t).Answered? && !Owned(held, done[t], id)) :: tunnels[t]
  }

  ghost predicate SameHolder(held: Table, held': Table, id: string) {
    forall k :: Owned(held, k, id) <==> Owned(held', k, id)
  }

  ghost predicate Parts(all: map<string, string>, done: map<string, string>, todo: map<string, string>) {
    && (forall t :: t in all <==> t in done || t in todo)
    && (forall t | t in done :: t !in todo && t in all && done[t] == all[t])
    && (forall t | t in todo :: t in all && todo[t] == all[t])
  }

  lemma AllDone(all: map<string, string>, done: map<string, string>)
    requires Parts(all, done, map[])
    ensures done == all
  {
  }

  lemma NoneKept(tunnels: map<string, string>, outcomes: Outcomes, held: Table, id: string)
    ensures Kept(tunnels, map[], outcomes, held, id) == tunnels
  {
  }

  lemma OneMoreKept(tunnels: map<string, string>, done: map<string, string>, t: string, key: string, outcomes: Outcomes, held: Table, id: string)
    requires t !in done
    ensures
      var before := Kept(tunnels, done, outcomes, held, id);
      var lost := outcomes(t).Answered? && !Owned(held, key, id);
      Kept(tunnels, done[t := key], outcomes, held, id) == if lost then before - {t} else before
  {
  }

  /** One renewal, with its call and what it leaves of the tunnels. */
  ghost predicate RenewedOne(c: C.Control, c': C.Control, id: string, t: string, outcome: C.Outcome, lost: bool)
    requires id in c.sessions && c.sessions[id].beat.Round? && t in c.sessions[id].beat.todo
  {
    var s := c.sessions[id];
    && (lost <==> outcome.Answered? && !Owned(Live(c.table, c.now), s.beat.todo[t], id))
    && c'.sessions == c.sessions[id := s.(beat := C.Round(s.beat.todo - {t}), tunnels := if lost then s.tunnels - {t} else s.tunnels)]
    && (c.ttl > 0 ==> SameHolder(Live(c.table, c.now), Live(c'.table, c.now), id))
  }

  /** A round from `c0` has come to `c`, with the tunnels of `done` renewed. */
  ghost predicate RoundSoFar(c0: C.Control, c: C.Control, id: string, outcomes: Outcomes, done: map<string, string>)
    requires id in c0.sessions && c0.sessions[id].beat.Round?
  {
    var s, held := c0.sessions[id], Live(c0.table, c0.now);
    && id in c.sessions && c.sessions[id].beat.Round? && c.now == c0.now && c.ttl == c0.ttl
    && c.sessions == c0.sessions[id := s.(beat := c.sessions[id].beat, tunnels := c.sessions[id].tunnels)]
    && Parts(s.beat.todo, done, c.sessions[id].beat.todo)
    && (c.ttl > 0 ==>
          && SameHolder(held, Live(c.table, c.now), id)
          && c.sessions[id].tunnels == Kept(s.tunnels, done, outcomes, held, id))
  }

  lemma RoundGoesOn(c0: C.Control, c: C.Control, c': C.Control, id: string, outcomes: Outcomes, done: map<string, string>, t: string, lost: bool)
    requires id in c0.sessions && c0.sessions[id].beat.Round? && RoundSoFar(c0, c, id, outcomes, done)
    requires t in c.sessions[id].beat.todo && RenewedOne(c, c', id, t, outcomes(t), lost)
    requires c'.now == c.now && c'.ttl == c.ttl
    ensures RoundSoFar(c0, c', id, outcomes, done[t := c.sessions[id].beat.todo[t]])
  {
    var s := c.sessions[id];
    OneMoreKept(c0.sessions[id].tunnels, done, t, s.beat.todo[t], outcomes, Live(c0.table, c0.now), id);
    PutTwice(c0.sessions, id, s, c'.sessions[id]);
  }

  lemma LookedUp(c: C.Control, node: string, key: string, session: string)
    requires C.Call(c, Op.Lookup(key)).1.Found? && C.Call(c, Op.Lookup(key)).1.record.Some?
    requires C.Call(c, Op.Lookup(key)).1.record.value.nodeId == node
    requires C.Call(c, Op.Lookup(key)).1.record.value.sessionId == session
    ensures C.Next(c, C.LookUp(node, key)) == c.(found := c.found + {(node, key, session)})
  {
  }

  lemma Checked(c: C.Control, node: string, key: string, session: string)
    requires (node, key, session) in c.found
    ensures
      var c' := c.(found := c.found - {(node, key, session)});
      C.Next(c, C.CheckSession(node, key, session)) ==
        if session in c.sessions && c.sessions[session].node == node && C.Present(c.sessions[session]) then c'
        else c'.(stale := c.stale + {(key, session)})
  {
  }

  /** What an ingress on `node` has decided, and what that has done. */
  ghost predicate Routed(c: C.Control, c': C.Control, node: string, key: string, secondHop: bool, up: bool, cleanup: C.Outcome, r: Decision) {
    var a := C.Call(c, Op.Lookup(key)).1;
    if !up then r == TableDown && c' == c
    else if a == Found(None) then r == NotFound && c' == c
    else
      a.Found? && a.record.Some? &&
      var record := a.record.value;
      var gone := !(record.sessionId in c.sessions && c.sessions[record.sessionId].node == node && C.Present(c.sessions[record.sessionId]));
      var asked := C.Next(C.Next(c, C.LookUp(node, key)), C.CheckSession(node, key, record.sessionId));
      if record.nodeId != node then r == (if secondHop then LoopDetected else HandOff(record.nodeAddr)) && c' == c
      else if gone then r == NotFound && c' == C.Next(asked, C.CleanUp(key, record.sessionId, cleanup))
      else r == Local(record.sessionId) && c' == asked
  }

  class Plane {
    const base: string
    const ttl: nat
    var now: nat
    var table: Table
    var sessions: map<string, C.Session>
    ghost var found: set<(string, string, string)>
    ghost var stale: set<(string, string)>
    ghost var unsure: set<(string, string)>

    ghost function State(): C.Control
      reads this
    {
      C.Control(base, ttl, now, table, sessions, found, stale, unsure)
    }

    constructor (base: string, ttl: nat)
      ensures State() == C.Init(base, ttl)
    {
      this.base := base;
      this.ttl := ttl;
      now := 0;
      table := map[];
      sessions := map[];
      found := {};
      stale := {};
      unsure := {};
    }

    /** A registry call: answered, or failed with or without effect. */
    method Ask(op: Op, outcome: C.Outcome) returns (answer: Option<Answer>)
      modifies this`table
      ensures table == if outcome.NoEffect? then old(table) else C.Call(old(State()), op).0
      ensures answer == if outcome.Answered? then Some(C.Call(old(State()), op).1) else None
    {
      answer := None;
      if !outcome.NoEffect? {
        var (t, a) := Ideal(table, Event(now, now, op));
        table := t;
        if outcome.Answered? {
          answer := Some(a);
        }
      }
    }

    /** `register_tunnel`: the limit, the resolution, the claim, the insertion. A tunnel is listed
        exactly when the request was accepted, and then the table's record for its key is this session's,
        with this tunnel's id and this account. */
    method RegisterTunnel(id: string, spec: TunnelSpec, tunnelId: string, generated: string, outcome: C.Outcome)
      returns (accepted: bool)
      requires id in sessions && sessions[id].phase.Active? && sessions[id].loop.Idle?
      requires tunnelId !in sessions[id].used && tunnelId !in sessions[id].tunnels && Generated(generated)
      modifies this
      ensures now == old(now)
      ensures State() ==
        C.Next(C.Next(C.Next(old(State()), C.Request(id, spec, tunnelId, generated)), C.DoClaim(id, outcome)), C.DoInsert(id))
      ensures id in sessions && (accepted <==> tunnelId in sessions[id].tunnels)
      ensures accepted ==>
        var s := old(sessions)[id];
        var resolved := Resolve(s.principal, base, generated, spec);
        && resolved.Success? && Listed(old(State()), State(), id, tunnelId, StorageKey(resolved.value))
    {
      ghost var c0 := State();
      var s := sessions[id];
      if s.principal.limits.maxTunnels > 0 && |s.tunnels| >= s.principal.limits.maxTunnels {
        return false;
      }
      var resolved := Resolve(s.principal, base, generated, spec);
      if resolved.Failure? {
        return false;
      }
      var key := StorageKey(resolved.value);
      sessions := sessions[id := s.(used := s.used[tunnelId := key], loop := C.Claiming(tunnelId, key))];
      ghost var c1 := State();
      assert c1 == C.Next(c0, C.Request(id, spec, tunnelId, generated));
      accepted := ClaimAndInsert(id, outcome);
    }

    /** The second half, with the claim in progress. */
    method ClaimAndInsert(id: string, outcome: C.Outcome) returns (accepted: bool)
      requires id in sessions && sessions[id].loop.Claiming? && sessions[id].loop.tunnelId !in sessions[id].tunnels
      modifies this`table, this`sessions, this`unsure
      ensures State() == C.Next(C.Next(old(State()), C.DoClaim(id, outcome)), C.DoInsert(id))
      ensures id in sessions && (accepted <==> old(sessions)[id].loop.tunnelId in sessions[id].tunnels)
      ensures accepted ==> Listed(old(State()), State(), id, old(sessions)[id].loop.tunnelId, old(sessions)[id].loop.key)
    {
      ghost var c0 := State();
      var s := sessions[id];
      var op := Op.Claim(C.RecordOf(C.Control(base, ttl, now, table, sessions, {}, {}, {}), id, s, s.loop.tunnelId, s.loop.key), ttl);
      var answer := Ask(op, outcome);
      if answer == Some(Claimed(Acquired)) {
        sessions := sessions[id := s.(loop := C.Inserting(s.loop.tunnelId, s.loop.key))];
        unsure := unsure - {(s.loop.key, id)};
        assert State() == C.Next(c0, C.DoClaim(id, outcome));
        sessions := sessions[id := s.(tunnels := s.tunnels[s.loop.tunnelId := s.loop.key], loop := C.Idle)];
        accepted := true;
      } else {
        sessions := sessions[id := s.(loop := C.Idle)];
        if outcome.ReplyLost? && C.Call(c0, op).1 == Claimed(Acquired) {
          unsure := unsure + {(s.loop.key, id)};
        }
        assert State() == C.Next(c0, C.DoClaim(id, outcome));
        accepted := false;
      }
    }

    /** The CloseTunnel arm: removed from the session's table first, then released. */
    method CloseTunnel(id: string, tunnelId: string, outcome: C.Outcome)
      requires id in sessions && sessions[id].phase.Active? && sessions[id].loop.Idle?
      modifies this`table, this`sessions, this`unsure
      ensures State() == C.Next(C.Next(old(State()), C.CloseTunnel(id, tunnelId)), C.DoRelease(id, outcome))
    {
      ghost var c0 := State();
      var s := sessions[id];
      if tunnelId in s.tunnels {
        var key := s.tunnels[tunnelId];
        sessions := sessions[id := s.(tunnels := s.tunnels - {tunnelId}, loop := C.Releasing(key))];
        ghost var c1 := State();
        assert c1 == C.Next(c0, C.CloseTunnel(id, tunnelId));
        var _ := Ask(Op.Release(key, id), outcome);
        unsure := if outcome.NoEffect? then unsure + {(key, id)} else unsure - {(key, id)};
        sessions := sessions[id := s.(tunnels := s.tunnels - {tunnelId}, loop := C.Idle)];
      }
    }

    /** `teardown`: it releases what the session still lists and takes the session off the node.
        Where the release took effect the session owns nothing any more, and no other session's
        lease is touched. */
    method Teardown(id: string, outcomes: Outcomes) returns (ghost trace: seq<C.Action>)
      requires id in sessions && sessions[id].phase.Active? && sessions[id].loop.Idle?
      modifies this`table, this`sessions, this`unsure
      ensures State() == C.Next(C.Exec(C.Next(old(State()), C.HangUp(id)), trace), C.FinishTeardown(id))
      ensures sessions == old(sessions)[id := old(sessions)[id].(phase := C.Ended)]
      ensures AllFree(table, now, id, C.Keys(old(sessions)[id].tunnels), outcomes)
      ensures OthersKept(old(table), table, now, id)
    {
      ghost var m := sessions;
      var s := sessions[id];
      sessions := sessions[id := s.(phase := C.TearingDown(C.Keys(s.tunnels)))];
      trace := ReleaseAll(id, outcomes);
      sessions := sessions[id := s.(phase := C.Ended)];
    }

    /** The loop of `teardown`. */
    method ReleaseAll(id: string, outcomes: Outcomes) returns (ghost trace: seq<C.Action>)
      requires id in sessions && sessions[id].phase.TearingDown?
      modifies this`table, this`sessions, this`unsure
      ensures State() == C.Exec(old(State()), trace)
      ensures sessions == old(sessions)[id := old(sessions)[id].(phase := C.TearingDown({}))]
      ensures AllFree(table, now, id, old(sessions)[id].phase.todo, outcomes)
      ensures OthersKept(old(table), table, now, id)
    {
      ghost var c0 := State();
      trace := [];
      while sessions[id].phase.todo != {}
        invariant TornSoFar(c0, State(), id, outcomes)
        invariant State() == C.Exec(c0, trace)
        decreases |sessions[id].phase.todo|
      {
        var k :| k in sessions[id].phase.todo;
        ghost var c, a := State(), C.TeardownRelease(id, k, outcomes(k));
        ExecThen(c0, trace, a);
        trace := trace + [a];
        ReleaseOne(id, k, outcomes(k));
        TearingGoesOn(c0, c, State(), id, outcomes, k);
      }
      ghost var all := c0.sessions[id].phase.todo;
      assert all - {} == all;
    }

    /** One release of the loop. */
    method ReleaseOne(id: string, key: string, outcome: C.Outcome)
      requires id in sessions && sessions[id].phase.TearingDown? && key in sessions[id].phase.todo
      modifies this`table, this`sessions, this`unsure
      ensures State() == C.Next(old(State()), C.TeardownRelease(id, key, outcome))
      ensures ReleasedOne(old(State()), State(), id, key, outcome)
    {
      var s := sessions[id];
      var _ := Ask(Op.Release(key, id), outcome);
      unsure := if outcome.NoEffect? then unsure + {(key, id)} else unsure - {(key, id)};
      sessions := sessions[id := s.(phase := C.TearingDown(s.phase.todo - {key}))];
    }

    /** One round of the heartbeat: every tunnel listed when it starts is renewed, and dropped when
        the registry says that its key is not the session's; a failed call drops nothing. */
    method BeatOnce(id: string, outcomes: Outcomes) returns (ghost trace: seq<C.Action>)
      requires id in sessions && sessions[id].phase.Active? && sessions[id].beat.Resting?
      modifies this`table, this`sessions
      ensures State() == C.Next(C.Exec(C.Next(old(State()), C.Beat(id)), trace), C.StopBeat(id))
      ensures id in sessions
      ensures ttl > 0 ==>
        var s := old(sessions)[id];
        sessions == old(sessions)[id := s.(tunnels := Kept(s.tunnels, s.tunnels, outcomes, Live(old(table), now), id))]
    {
      ghost var m := sessions;
      var s := sessions[id];
      sessions := sessions[id := s.(beat := C.Round(s.tunnels))];
      trace := RenewAll(id, outcomes);
      sessions := sessions[id := sessions[id].(beat := C.Resting)];
    }

    /** The loop over the tunnels of the round. */
    method RenewAll(id: string, outcomes: Outcomes) returns (ghost trace: seq<C.Action>)
      requires id in sessions && sessions[id].beat.Round?
      modifies this`table, this`sessions
      ensures State() == C.Exec(old(State()), trace)
      ensures id in sessions && sessions[id].beat == C.Round(map[])
      ensures
        var s := old(sessions)[id];
        sessions == old(sessions)[id := s.(beat := C.Round(map[]), tunnels := sessions[id].tunnels)]
      ensures ttl > 0 ==>
        var s := old(sessions)[id];
        sessions[id].tunnels == Kept(s.tunnels, s.beat.todo, outcomes, Live(old(table), now), id)
    {
      ghost var c0 := State();
      ghost var done: map<string, string> := map[];
      trace := [];
      NoneKept(sessions[id].tunnels, outcomes, Live(table, now), id);
      while sessions[id].beat.todo != map[]
        invariant RoundSoFar(c0, State(), id, outcomes, done)
        invariant State() == C.Exec(c0, trace)
        decreases |sessions[id].beat.todo|
      {
        var t :| t in sessions[id].beat.todo;
        ghost var c := State();
        var lost := RenewOne(id, t, outcomes(t));
        ExecRenewal(c0, trace, id, t, outcomes(t), lost);
        RoundGoesOn(c0, c, State(), id, outcomes, done, t, lost);
        trace := trace + Renewal(id, t, outcomes(t), lost);
        done := done[t := c.sessions[id].beat.todo[t]];
      }
      AllDone(c0.sessions[id].beat.todo, done);
    }

    /** One renewal of the round; the tunnel is dropped when it turns out to be lost. */
    method RenewOne(id: string, t: string, outcome: C.Outcome) returns (lost: bool)
      requires id in sessions && sessions[id].beat.Round? && t in sessions[id].beat.todo
      modifies this`table, this`sessions
      ensures RenewedOne(old(State()), State(), id, t, outcome, lost)
      ensures State() == if lost then C.Next(C.Next(old(State()), C.RenewOne(id, t, outcome)), C.DropLost(id))
                         else C.Next(old(State()), C.RenewOne(id, t, outcome))
    {
      ghost var m, s := sessions, sessions[id];
      lost := Renew(id, t, outcome);
      if lost {
        DropLost(id);
        PutTwice(m, id, s.(beat := C.Lost(t, s.beat.todo - {t})), sessions[id]);
      }
    }

    /** The call, and where it leaves the heartbeat. */
    method Renew(id: string, t: string, outcome: C.Outcome) returns (lost: bool)
      requires id in sessions && sessions[id].beat.Round? && t in sessions[id].beat.todo
      modifies this`table, this`sessions
      ensures lost <==> outcome.Answered? && !Owned(Live(old(table), now), old(sessions)[id].beat.todo[t], id)
      ensures State() == C.Next(old(State()), C.RenewOne(id, t, outcome))
      ensures
        var s := old(sessions)[id];
        var rest := s.beat.todo - {t};
        sessions == old(sessions)[id := s.(beat := if lost then C.Lost(t, rest) else C.Round(rest))]
      ensures ttl > 0 ==> SameHolder(Live(old(table), now), Live(table, now), id)
    {
      var s := sessions[id];
      var rest := s.beat.todo - {t};
      var answer := Ask(Op.Renew(s.beat.todo[t], id, ttl), outcome);
      lost := answer == Some(Renewed(false));
      sessions := sessions[id := s.(beat := if lost then C.Lost(t, rest) else C.Round(rest))];
    }

    /** A lost tunnel is taken off the session's list. */
    method DropLost(id: string)
      requires id in sessions && sessions[id].beat.Lost?
      modifies this`sessions
      ensures State() == C.Next(old(State()), C.DropLost(id))
      ensures
        var s := old(sessions)[id];
        sessions == old(sessions)[id := s.(tunnels := s.tunnels - {s.beat.tunnelId}, beat := C.Round(s.beat.todo))]
    {
      var s := sessions[id];
      sessions := sessions[id := s.(tunnels := s.tunnels - {s.beat.tunnelId}, beat := C.Round(s.beat.todo))];
    }

    /** A record names this node: its session serves the request, or the claim is cleaned up. */
    method ServeOwn(node: string, key: string, session: string, outcome: C.Outcome) returns (r: Decision)
      requires C.Call(State(), Op.Lookup(key)).1.Found?
      requires C.Call(State(), Op.Lookup(key)).1.record.Some?
      requires C.Call(State(), Op.Lookup(key)).1.record.value.nodeId == node
      requires C.Call(State(), Op.Lookup(key)).1.record.value.sessionId == session
      modifies this`table, this`found, this`stale, this`unsure
      ensures
        var asked := C.Next(C.Next(old(State()), C.LookUp(node, key)), C.CheckSession(node, key, session));
        if session in sessions && sessions[session].node == node && C.Present(sessions[session])
        then r == Local(session) && State() == asked
        else r == NotFound && State() == C.Next(asked, C.CleanUp(key, session, outcome))
    {
      LookedUp(State(), node, key, session);
      found := found + {(node, key, session)};
      Checked(State(), node, key, session);
      found := found - {(node, key, session)};
      if session in sessions && sessions[session].node == node && C.Present(sessions[session]) {
        r := Local(session);
      } else {
        stale := stale + {(key, session)};
        ReleaseStale(key, session, outcome);
        r := NotFound;
      }
    }

    /** The cleanup itself, whose result is discarded. */
    method ReleaseStale(key: string, session: string, outcome: C.Outcome)
      requires (key, session) in stale
      modifies this`table, this`stale, this`unsure
      ensures State() == C.Next(old(State()), C.CleanUp(key, session, outcome))
    {
      stale := stale - {(key, session)};
      var _ := Ask(Op.Release(key, session), outcome);
      if !outcome.NoEffect? {
        unsure := unsure - {(key, session)};
      }
    }

    /** The routing decision of an ingress on `node` for a key: a record of this node whose session is
        gone is cleaned up, and a request that was handed over once is not handed over again. */
    method RouteKey(node: string, key: string, secondHop: bool, up: bool, cleanup: C.Outcome) returns (r: Decision)
      modifies this`table, this`found, this`stale, this`unsure
      ensures Routed(old(State()), State(), node, key, secondHop, up, cleanup, r)
    {
      if !up {
        return TableDown;
      }
      var live := Live(table, now);
      if key !in live {
        return NotFound;
      }
      var record := live[key].record;
      if record.nodeId != node {
        return if secondHop then LoopDetected else HandOff(record.nodeAddr);
      }
      r := ServeOwn(node, key, record.sessionId, cleanup);
    }

    /** `handle`: the host of the request becomes the key, or the request is refused. */
    method Handle(node: string, host: string, secondHop: bool, up: bool, cleanup: C.Outcome) returns (r: Decision)
      modifies this`table, this`found, this`stale, this`unsure
      ensures
        match NormalizeHost(host)
        case Failure(e) => r == BadHost(e) && State() == old(State())
        case Success(key) => Routed(old(State()), State(), node, key, secondHop, up, cleanup, r)
    {
      match NormalizeHost(host)
      case Failure(e) => r := BadHost(e);
      case Success(key) => r := RouteKey(node, key, secondHop, up, cleanup);
    }
  }

  /** Registration and ingress together: once a request for a tunnel has been accepted, the next public
      request on the same node whose host spells the host that was asked for is served by that session,
      under every spelling and no base but one with a colon in its key. */
  method RegisterThenHandle(plane: Plane, id: string, subdomain: string, customDomain: string, tunnelId: string,
                            generated: string, outcome: C.Outcome, host: string, secondHop: bool, cleanup: C.Outcome)
    returns (accepted: bool, r: Decision)
    requires id in plane.sessions && plane.sessions[id].phase.Active? && plane.sessions[id].loop.Idle?
    requires tunnelId !in plane.sessions[id].used && tunnelId !in plane.sessions[id].tunnels && Generated(generated)
    requires plane.ttl > 0
    modifies plane
    ensures accepted && FoundBy(plane.base, subdomain, customDomain, generated, host) ==> r == Local(id)
  {
    ghost var s := plane.sessions[id];
    accepted := plane.RegisterTunnel(id, Http(subdomain, customDomain), tunnelId, generated, outcome);
    ghost var c := plane.State();
    if accepted {
      var resolved := Resolve(s.principal, plane.base, generated, Http(subdomain, customDomain));
      RegisteredIsFound(s.principal, plane.base, generated, subdomain, customDomain, resolved.value, host);
      LeasedIsFound(c, StorageKey(resolved.value));
    }
    r := plane.Handle(plane.sessions[id].node, host, secondHop, true, cleanup);
  }

  lemma LeasedIsFound(c: C.Control, key: string)
    requires key in c.table && c.now < c.table[key].expiresAt
    ensures C.Call(c, Op.Lookup(key)).1 == Found(Some(c.table[key].record))
  {
  }
}
