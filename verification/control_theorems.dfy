/** The promises of the control plane, for every run. */
module ControlTheorems {
  import opened Wrappers
  import opened Codec
  import opened Lease
  import opened Routing
  import opened Registration
  import opened Control
  import opened ControlCalls
  import opened ControlRuns

  function Reached(base: string, ttl: nat, acts: seq<Action>): Control {
    Exec(Init(base, ttl), acts)
  }

  lemma ReachedOk(base: string, ttl: nat, acts: seq<Action>)
    ensures CtlInv(Reached(base, ttl, acts))
  {
    ExecKeeps(Init(base, ttl), acts);
  }

  /** The step leaves a lease of `id` on `k` behind: the reply to a successful claim is lost, or a
      release, on close or on teardown, fails without effect. */
  predicate Leaves(c: Control, a: Action, k: string, id: string) {
    && id in c.sessions
    && var s := c.sessions[id];
    match a
    case DoClaim(j, outcome) => j == id && outcome.ReplyLost? && Acquires(c, a, k, id)
    case DoRelease(j, outcome) => j == id && outcome.NoEffect? && s.loop.Releasing? && s.loop.key == k
    case TeardownRelease(j, key, outcome) =>
      j == id && outcome.NoEffect? && s.phase.TearingDown? && key in s.phase.todo && key == k
    case _ => false
  }

  /** The step is a claim of `k` by `id` that reaches the registry and succeeds. */
  predicate Acquires(c: Control, a: Action, k: string, id: string) {
    a.DoClaim? && a.id == id &&
    match OpOf(c, a)
    case None => false
    case Some(op) => op.Claim? && op.record.routingKey == k && Call(c, op).1 == Claimed(Acquired)
  }

  /** The step makes good for it: a release takes effect, or the session has the key again and knows. */
  predicate Clears(c: Control, a: Action, k: string, id: string) {
    OpOf(c, a) == Some(Op.Release(k, id)) || (Acquires(c, a, k, id) && a.outcome.Answered?)
  }

  /** The latest of these steps in a run left the lease behind. */
  predicate LeftBehind(c: Control, acts: seq<Action>, k: string, id: string, before: bool)
    decreases |acts|
  {
    if acts == [] then before
    else LeftBehind(Next(c, acts[0]), acts[1..], k, id,
                    Leaves(c, acts[0], k, id) || (before && !Clears(c, acts[0], k, id)))
  }

  lemma ClaimLeaves(c: Control, a: Action, k: string, id: string)
    requires a.DoClaim?
    ensures (k, id) in Next(c, a).unsure <==> Leaves(c, a, k, id) || ((k, id) in c.unsure && !Clears(c, a, k, id))
  {
  }

  lemma ReleaseLeaves(c: Control, a: Action, k: string, id: string)
    requires a.DoRelease? || a.TeardownRelease? || a.CleanUp?
    ensures (k, id) in Next(c, a).unsure <==> Leaves(c, a, k, id) || ((k, id) in c.unsure && !Clears(c, a, k, id))
  {
  }

  lemma OtherLeaves(c: Control, a: Action, k: string, id: string)
    requires !a.DoClaim? && !a.DoRelease? && !a.TeardownRelease? && !a.CleanUp?
    ensures Next(c, a).unsure == c.unsure && !Leaves(c, a, k, id) && !Clears(c, a, k, id)
  {
  }

  lemma NextLeaves(c: Control, a: Action, k: string, id: string)
    ensures (k, id) in Next(c, a).unsure <==> Leaves(c, a, k, id) || ((k, id) in c.unsure && !Clears(c, a, k, id))
  {
    if a.DoClaim? {
      ClaimLeaves(c, a, k, id);
    } else if a.DoRelease? || a.TeardownRelease? || a.CleanUp? {
      ReleaseLeaves(c, a, k, id);
    } else {
      OtherLeaves(c, a, k, id);
    }
  }

  lemma {:induction false} UnsureIsLeftBehind(c: Control, acts: seq<Action>, k: string, id: string)
    ensures (k, id) in Exec(c, acts).unsure <==> LeftBehind(c, acts, k, id, (k, id) in c.unsure)
    decreases |acts|
  {
    if acts != [] {
      NextLeaves(c, acts[0], k, id);
      UnsureIsLeftBehind(Next(c, acts[0]), acts[1..], k, id);
    }
  }

  /** No orphaned claims. Every lease in force is listed by its session, is the claim or close in
      progress, or waits for its teardown, unless a failed call of that session for that key has left it
      behind and nothing has made good for it since; an ended session owns nothing else. */
  lemma NoOrphans(base: string, ttl: nat, acts: seq<Action>, k: string)
    ensures
      var c := Reached(base, ttl, acts);
      k in Live(c.table, c.now) ==>
        var r := c.table[k].record;
        && r.routingKey == k && r.sessionId in c.sessions
        && Names(c.sessions[r.sessionId], r)
        && (Accounted(c.sessions[r.sessionId], k) || LeftBehind(Init(base, ttl), acts, k, r.sessionId, false))
        && (c.sessions[r.sessionId].phase.Ended? ==> LeftBehind(Init(base, ttl), acts, k, r.sessionId, false))
  {
    ReachedOk(base, ttl, acts);
    var c := Reached(base, ttl, acts);
    assert LeaseOk(c, k);
    if k in Live(c.table, c.now) {
      UnsureIsLeftBehind(Init(base, ttl), acts, k, c.table[k].record.sessionId);
    }
  }

  /** The ingress that cleans up after a session it does not know never takes a claim away from a
      session that some node still knows. */
  lemma CleanupIsSafe(base: string, ttl: nat, acts: seq<Action>, key: string, session: string, outcome: Outcome, k: string)
    ensures
      var c := Reached(base, ttl, acts);
      var c' := Next(c, CleanUp(key, session, outcome));
      k in Live(c.table, c.now) && c.table[k].record.sessionId in c.sessions && Present(c.sessions[c.table[k].record.sessionId]) ==>
        k in Live(c'.table, c'.now) && c'.table[k] == c.table[k]
  {
    ReachedOk(base, ttl, acts);
    var c := Reached(base, ttl, acts);
    if (key, session) in c.stale {
      ReleaseCall(c, key, session);
    }
  }

  /** A request that finds a record is never sent astray: the record names the node and the account of the
      session it belongs to and a tunnel that this session took up for the key. */
  lemma LookupsLeadHome(base: string, ttl: nat, acts: seq<Action>, k: string)
    ensures
      var c := Reached(base, ttl, acts);
      match Call(c, Op.Lookup(k)).1
      case Found(Some(r)) => r.routingKey == k && r.sessionId in c.sessions && Names(c.sessions[r.sessionId], r)
      case _ => true
  {
    ReachedOk(base, ttl, acts);
    assert LeaseOk(Reached(base, ttl, acts), k);
  }

  /** A positive limit on tunnels is never exceeded. */
  lemma TunnelLimitHolds(base: string, ttl: nat, acts: seq<Action>, id: string)
    ensures
      var c := Reached(base, ttl, acts);
      id in c.sessions && c.sessions[id].principal.limits.maxTunnels > 0 ==>
        |c.sessions[id].tunnels| <= c.sessions[id].principal.limits.maxTunnels
  {
    ReachedOk(base, ttl, acts);
  }

  /** Every key in the routing table was permitted to the account of the session that holds it. */
  lemma LeasesArePermitted(base: string, ttl: nat, acts: seq<Action>, k: string)
    ensures
      var c := Reached(base, ttl, acts);
      k in Live(c.table, c.now) ==>
        && c.table[k].record.sessionId in c.sessions
        && PermittedKey(c.sessions[c.table[k].record.sessionId].principal, c.base, k)
  {
    ReachedOk(base, ttl, acts);
    assert LeaseOk(Reached(base, ttl, acts), k);
  }
}
