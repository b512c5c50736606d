/** How leases run out: what can keep one alive, what a session that is closing or has ended can still
    do to it, and how the routes of a dead node go. */
module ControlExpiry {
  import opened Wrappers
  import opened Codec
  import opened Lease
  import opened Routing
  import opened Registration
  import opened Control
  import opened ControlCalls
  import opened ControlRuns
  import opened ControlTheorems

  /** The step gives the session's lease on the key a new deadline: a claim that is acquired, or a
      renewal that finds the session to be the owner. */
  predicate Extends(c: Control, a: Action, id: string, k: string) {
    match OpOf(c, a)
    case None => false
    case Some(op) => Grants(c.table, Event(c.now, c.now, op), k, id)
  }

  predicate ExtendedIn(c: Control, acts: seq<Action>, id: string, k: string)
    decreases |acts|
  {
    acts != [] && (Extends(c, acts[0], id, k) || ExtendedIn(Next(c, acts[0]), acts[1..], id, k))
  }

  /** If the session holds the key, it does so no longer than until `deadline`. */
  predicate HeldTo(t: Table, k: string, id: string, deadline: nat) {
    Owned(t, k, id) ==> t[k].expiresAt <= deadline
  }

  lemma CallHolds(t: Table, e: Event, k: string, id: string, deadline: nat)
    requires HeldTo(t, k, id, deadline) && !Grants(t, e, k, id)
    ensures HeldTo(Ideal(t, e).0, k, id, deadline)
  {
  }

  lemma NextHolds(c: Control, a: Action, id: string, k: string, deadline: nat)
    requires HeldTo(c.table, k, id, deadline) && !Extends(c, a, id, k)
    ensures HeldTo(Next(c, a).table, k, id, deadline)
  {
    if OpOf(c, a).Some? {
      NextResumes(c, a);
      CallHolds(c.table, Event(c.now, c.now, OpOf(c, a).value), k, id, deadline);
    } else {
      NextWithout(c, a);
    }
  }

  lemma {:induction false} ExecHolds(c: Control, acts: seq<Action>, id: string, k: string, deadline: nat)
    requires HeldTo(c.table, k, id, deadline) && !ExtendedIn(c, acts, id, k)
    ensures HeldTo(Exec(c, acts).table, k, id, deadline)
    decreases |acts|
  {
    if acts != [] {
      NextHolds(c, acts[0], id, k, deadline);
      ExecHolds(Next(c, acts[0]), acts[1..], id, k, deadline);
    }
  }

  /** When the lease on the key, if there is one, runs out. */
  function RunsOut(c: Control, k: string): nat {
    if k in c.table then c.table[k].expiresAt else 0
  }

  /** A lease that nobody extends is gone from its deadline on, whatever else happens: any other
      calls, of any session, with any outcome. */
  lemma OrphansExpire(c: Control, acts: seq<Action>, id: string, k: string)
    requires !ExtendedIn(c, acts, id, k) && Exec(c, acts).now >= RunsOut(c, k)
    ensures !Owned(Live(Exec(c, acts).table, Exec(c, acts).now), k, id)
  {
    ExecHolds(c, acts, id, k, RunsOut(c, k));
  }

  // ---- one lifetime at most --------------------------------------------------------------------------

  /** No deadline is further away than one lifetime, and only sessions leave leases behind. */
  ghost predicate Young(c: Control) {
    && (forall k | k in c.table :: c.table[k].expiresAt <= c.now + c.ttl)
    && (forall u | u in c.unsure :: u.1 in c.sessions)
  }

  lemma CallYoung(t: Table, now: nat, ttl: nat, op: Op)
    requires forall k | k in t :: t[k].expiresAt <= now + ttl
    requires op.Claim? || op.Renew? ==> op.ttl == ttl
    ensures
      var t' := Ideal(t, Event(now, now, op)).0;
      forall k | k in t' :: t'[k].expiresAt <= now + ttl
  {
  }

  lemma TableYoung(c: Control, a: Action)
    requires forall k | k in c.table :: c.table[k].expiresAt <= c.now + c.ttl
    ensures forall k | k in Next(c, a).table :: Next(c, a).table[k].expiresAt <= c.now + c.ttl
  {
    if OpOf(c, a).Some? {
      NextResumes(c, a);
      OpTtl(c, a);
      CallYoung(c.table, c.now, c.ttl, OpOf(c, a).value);
    } else {
      NextWithout(c, a);
    }
  }

  lemma KnownYoung(c: Control, a: Action)
    ensures forall u | u in Next(c, a).unsure && u !in c.unsure :: u.1 in c.sessions
    ensures c.sessions.Keys <= Next(c, a).sessions.Keys
  {
    forall u | u in Next(c, a).unsure && u !in c.unsure
      ensures u.1 in c.sessions
    {
      NextLeaves(c, a, u.0, u.1);
    }
  }

  lemma NextYoung(c: Control, a: Action)
    requires Young(c)
    ensures Young(Next(c, a)) && Next(c, a).ttl == c.ttl
  {
    TableYoung(c, a);
    KnownYoung(c, a);
    ClockMoves(c, a);
  }

  lemma {:induction false} ExecYoung(c: Control, acts: seq<Action>)
    requires Young(c)
    ensures Young(Exec(c, acts)) && Exec(c, acts).ttl == c.ttl
    decreases |acts|
  {
    if acts != [] {
      NextYoung(c, acts[0]);
      ExecYoung(Next(c, acts[0]), acts[1..]);
    }
  }

  /** From any reachable state: what a failed call has left behind is gone when it runs out, one
      lifetime later at most, unless its session extends it. */
  lemma LeftBehindIsGone(base: string, ttl: nat, acts: seq<Action>, later: seq<Action>, id: string, k: string)
    requires LeftBehind(Init(base, ttl), acts, k, id, false)
    ensures
      var c := Reached(base, ttl, acts);
      var c' := Exec(c, later);
      && id in c.sessions
      && RunsOut(c, k) <= c.now + ttl
      && (!ExtendedIn(c, later, id, k) && c'.now >= RunsOut(c, k) ==> !Owned(Live(c'.table, c'.now), k, id))
  {
    ExecYoung(Init(base, ttl), acts);
    UnsureIsLeftBehind(Init(base, ttl), acts, k, id);
    var c := Reached(base, ttl, acts);
    assert (k, id).1 in c.sessions;
    if !ExtendedIn(c, later, id, k) && Exec(c, later).now >= RunsOut(c, k) {
      OrphansExpire(c, later, id, k);
    }
  }

  // ---- who extends nothing ---------------------------------------------------------------------------

  /** The session has no part in the key any more: while it is connected it lists no tunnel for it, it
      is not claiming it, and no round of its heartbeat still has it to do. */
  ghost predicate Quiet(s: Session, k: string) {
    && (s.phase.Active? ==> forall t | t in s.tunnels :: s.tunnels[t] != k)
    && (s.loop.Claiming? || s.loop.Inserting? ==> s.loop.key != k)
    && (s.beat.Round? || s.beat.Lost? ==> forall t | t in s.beat.todo :: s.beat.todo[t] != k)
  }

  /** The request makes the session claim `k` again. */
  predicate Reclaims(c: Control, a: Action, id: string, k: string) {
    && a.Request? && a.id == id
    && id in Next(c, a).sessions && Next(c, a).sessions[id].loop.Claiming? && Next(c, a).sessions[id].loop.key == k
  }

  predicate ReclaimedIn(c: Control, acts: seq<Action>, id: string, k: string)
    decreases |acts|
  {
    acts != [] && (Reclaims(c, acts[0], id, k) || ReclaimedIn(Next(c, acts[0]), acts[1..], id, k))
  }

  lemma QuietExtendsNothing(c: Control, a: Action, id: string, k: string)
    requires id in c.sessions && Quiet(c.sessions[id], k)
    ensures !Extends(c, a, id, k)
  {
  }

  lemma OthersQuiet(c: Control, a: Action, id: string, k: string)
    requires id in c.sessions && Quiet(c.sessions[id], k) && (OfOneSession(a) ==> a.id != id)
    ensures id in Next(c, a).sessions && Quiet(Next(c, a).sessions[id], k)
  {
    OthersLeave(c, a, id);
  }

  lemma RequestQuiet(c: Control, a: Action, id: string, k: string)
    requires id in c.sessions && Quiet(c.sessions[id], k) && a.Request? && a.id == id && !Reclaims(c, a, id, k)
    ensures id in Next(c, a).sessions && Quiet(Next(c, a).sessions[id], k)
  {
  }

  lemma ClaimQuiet(c: Control, a: Action, id: string, k: string)
    requires id in c.sessions && Quiet(c.sessions[id], k) && (a.DoClaim? || a.DoInsert?) && a.id == id
    ensures id in Next(c, a).sessions && Quiet(Next(c, a).sessions[id], k)
  {
  }

  lemma ReleaseQuiet(c: Control, a: Action, id: string, k: string)
    requires id in c.sessions && Quiet(c.sessions[id], k) && (a.CloseTunnel? || a.DoRelease?) && a.id == id
    ensures id in Next(c, a).sessions && Quiet(Next(c, a).sessions[id], k)
  {
  }

  lemma ReadLoopQuiet(c: Control, a: Action, id: string, k: string)
    requires id in c.sessions && Quiet(c.sessions[id], k) && OfReadLoop(a) && a.id == id && !Reclaims(c, a, id, k)
    ensures id in Next(c, a).sessions && Quiet(Next(c, a).sessions[id], k)
  {
    if a.Request? {
      RequestQuiet(c, a, id, k);
    } else if a.DoClaim? || a.DoInsert? {
      ClaimQuiet(c, a, id, k);
    } else {
      ReleaseQuiet(c, a, id, k);
    }
  }

  lemma BeatQuiet(c: Control, a: Action, id: string, k: string)
    requires id in c.sessions && Quiet(c.sessions[id], k) && OfOneSession(a) && !OfReadLoop(a) && a.id == id
    ensures id in Next(c, a).sessions && Quiet(Next(c, a).sessions[id], k)
  {
  }

  lemma {:induction false} QuietIn(c: Control, acts: seq<Action>, id: string, k: string)
    requires id in c.sessions && Quiet(c.sessions[id], k) && !ReclaimedIn(c, acts, id, k)
    ensures !ExtendedIn(c, acts, id, k)
    decreases |acts|
  {
    if acts != [] {
      var a := acts[0];
      QuietExtendsNothing(c, a, id, k);
      if !(OfOneSession(a) && a.id == id) {
        OthersQuiet(c, a, id, k);
      } else if OfReadLoop(a) {
        ReadLoopQuiet(c, a, id, k);
      } else {
        BeatQuiet(c, a, id, k);
      }
      QuietIn(Next(c, a), acts[1..], id, k);
    }
  }

  /** A session that has no part in a key any more, disconnected or not, lets it run out whatever it
      does about other keys, unless it asks for that very key again. */
  lemma QuietSessionsFade(base: string, ttl: nat, acts: seq<Action>, later: seq<Action>, id: string, k: string)
    ensures
      var c := Reached(base, ttl, acts);
      var c' := Exec(c, later);
      id in c.sessions && Quiet(c.sessions[id], k) && !ReclaimedIn(c, later, id, k) && c'.now >= RunsOut(c, k) ==>
        RunsOut(c, k) <= c.now + ttl && !Owned(Live(c'.table, c'.now), k, id)
  {
    var c := Reached(base, ttl, acts);
    ExecYoung(Init(base, ttl), acts);
    if id in c.sessions && Quiet(c.sessions[id], k) && !ReclaimedIn(c, later, id, k) && Exec(c, later).now >= RunsOut(c, k) {
      QuietIn(c, later, id, k);
      OrphansExpire(c, later, id, k);
    }
  }

  // ---- ended sessions --------------------------------------------------------------------------------

  lemma EndedStays(c: Control, a: Action, id: string)
    requires id in c.sessions && c.sessions[id].phase.Ended?
    ensures id in Next(c, a).sessions && Next(c, a).sessions[id].phase.Ended?
  {
    if OfOneSession(a) && a.id == id {
      OwnStays(c, a, id);
      EndedStep(c, a, id);
    } else {
      OthersLeave(c, a, id);
    }
  }

  lemma EndedStep(c: Control, a: Action, id: string)
    requires id in c.sessions && c.sessions[id].phase.Ended? && id in SessionStep(c, id, c.sessions[id], a).sessions
    ensures SessionStep(c, id, c.sessions[id], a).sessions[id].phase.Ended?
  {
  }

  lemma EndedReclaims(c: Control, a: Action, id: string, k: string)
    requires id in c.sessions && c.sessions[id].phase.Ended? && c.sessions[id].loop.Idle?
    ensures !Reclaims(c, a, id, k)
  {
  }

  lemma {:induction false} EndedReclaimsNothing(c: Control, acts: seq<Action>, id: string, k: string)
    requires CtlInv(c) && id in c.sessions && c.sessions[id].phase.Ended?
    ensures !ReclaimedIn(c, acts, id, k)
    decreases |acts|
  {
    if acts != [] {
      assert SessionOk(c.base, c.sessions[id]);
      EndedReclaims(c, acts[0], id, k);
      EndedStays(c, acts[0], id);
      NextKeeps(c, acts[0]);
      EndedReclaimsNothing(Next(c, acts[0]), acts[1..], id, k);
    }
  }

  /** What teardown could not release is gone one lifetime later at most: a session that has ended, with
      no round of its heartbeat in progress, never extends anything again. */
  lemma EndedSessionsFade(base: string, ttl: nat, acts: seq<Action>, later: seq<Action>, id: string, k: string)
    ensures
      var c := Reached(base, ttl, acts);
      var c' := Exec(c, later);
      id in c.sessions && c.sessions[id].phase.Ended? && c.sessions[id].beat.Resting? ==>
        && RunsOut(c, k) <= c.now + ttl
        && !ExtendedIn(c, later, id, k)
        && (c'.now >= RunsOut(c, k) ==> !Owned(Live(c'.table, c'.now), k, id))
  {
    var c := Reached(base, ttl, acts);
    ReachedOk(base, ttl, acts);
    ExecYoung(Init(base, ttl), acts);
    if id in c.sessions && c.sessions[id].phase.Ended? && c.sessions[id].beat.Resting? {
      assert SessionOk(c.base, c.sessions[id]);
      EndedReclaimsNothing(c, later, id, k);
      QuietIn(c, later, id, k);
      if Exec(c, later).now >= RunsOut(c, k) {
        OrphansExpire(c, later, id, k);
      }
    }
  }

  // ---- dead nodes ------------------------------------------------------------------------------------

  /** A step of a session on the node. */
  predicate OnNode(c: Control, a: Action, node: string) {
    OfOneSession(a) && a.id in c.sessions && c.sessions[a.id].node == node
  }

  /** The node takes no part in the run. */
  predicate Silent(c: Control, acts: seq<Action>, node: string)
    decreases |acts|
  {
    acts == [] || (!OnNode(c, acts[0], node) && Silent(Next(c, acts[0]), acts[1..], node))
  }

  /** Every route to the node runs out by `deadline`. */
  ghost predicate NodeHeldTo(t: Table, node: string, deadline: nat) {
    forall k | k in t && t[k].record.nodeId == node :: t[k].expiresAt <= deadline
  }

  /** The call neither claims for the node nor renews a route to it. */
  predicate Foreign(t: Table, now: nat, op: Op, node: string) {
    && (op.Claim? ==> op.record.nodeId != node)
    && (op.Renew? && Owned(Live(t, now), op.key, op.session) ==> t[op.key].record.nodeId != node)
  }

  lemma ForeignHolds(t: Table, now: nat, op: Op, node: string, deadline: nat)
    requires NodeHeldTo(t, node, deadline) && Foreign(t, now, op, node)
    ensures NodeHeldTo(Ideal(t, Event(now, now, op)).0, node, deadline)
  {
  }

  lemma OthersAreForeign(c: Control, a: Action, node: string)
    requires CtlInv(c) && !OnNode(c, a, node) && OpOf(c, a).Some?
    ensures Foreign(c.table, c.now, OpOf(c, a).value, node)
  {
    if a.RenewOne? {
      assert LeaseOk(c, OpOf(c, a).value.key);
    }
  }

  lemma SilentStep(c: Control, a: Action, node: string, deadline: nat)
    requires CtlInv(c) && NodeHeldTo(c.table, node, deadline) && !OnNode(c, a, node)
    ensures NodeHeldTo(Next(c, a).table, node, deadline)
  {
    if OpOf(c, a).Some? {
      NextResumes(c, a);
      OthersAreForeign(c, a, node);
      ForeignHolds(c.table, c.now, OpOf(c, a).value, node, deadline);
    } else {
      NextWithout(c, a);
    }
  }

  lemma {:induction false} SilentRun(c: Control, acts: seq<Action>, node: string, deadline: nat)
    requires CtlInv(c) && NodeHeldTo(c.table, node, deadline) && Silent(c, acts, node)
    ensures NodeHeldTo(Exec(c, acts).table, node, deadline)
    decreases |acts|
  {
    if acts != [] {
      NextKeeps(c, acts[0]);
      SilentStep(c, acts[0], node, deadline);
      SilentRun(Next(c, acts[0]), acts[1..], node, deadline);
    }
  }

  /** The table heals itself: from any reachable state in which a node dies, one lifetime later no key
      leads to it any more, whatever everybody else does. */
  lemma DeadNodeIsForgotten(base: string, ttl: nat, acts: seq<Action>, later: seq<Action>, node: string, k: string)
    ensures
      var c := Reached(base, ttl, acts);
      var c' := Exec(c, later);
      Silent(c, later, node) && c'.now >= c.now + ttl && k in Live(c'.table, c'.now) ==>
        c'.table[k].record.nodeId != node
  {
    var c := Reached(base, ttl, acts);
    if Silent(c, later, node) {
      ReachedOk(base, ttl, acts);
      ExecYoung(Init(base, ttl), acts);
      SilentRun(c, later, node, c.now + ttl);
    }
  }
}
