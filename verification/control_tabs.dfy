/** When the records of the control plane are free of tabs, and with them the shared table answers
    as the lease table that `Control` uses. */
module ControlTabs {
  import opened Wrappers
  import opened Codec
  import opened Lease
  import opened Routing
  import opened Registration
  import opened Control
  import opened ControlRuns
  import opened ControlCalls
  import ControlTheorems
  import RedisRegistry

  predicate NoTab(s: string) {
    '\t' !in s
  }

  /** The account's name holds no tab and its domains cover no key with one. */
  predicate CleanPrincipal(p: Principal) {
    NoTab(p.accountId) && forall i | 0 <= i < |p.customDomains| :: !TabbedEntry(p.customDomains[i])
  }

  /** The names the step brings in hold no tab, and its principal is as `ok` has it. */
  predicate CleanAction(a: Action, ok: Principal -> bool) {
    match a
    case Connect(id, node, addr, principal) => NoTab(id) && NoTab(node) && NoTab(addr) && ok(principal)
    case Request(_, _, tunnelId, _) => NoTab(tunnelId)
    case _ => true
  }

  predicate CleanSession(id: string, s: Session, ok: Principal -> bool) {
    && NoTab(id) && NoTab(s.node) && NoTab(s.addr) && ok(s.principal)
    && (s.loop.Claiming? || s.loop.Inserting? ==> NoTab(s.loop.tunnelId))
  }

  ghost predicate CleanSessions(c: Control, ok: Principal -> bool) {
    forall id | id in c.sessions :: CleanSession(id, c.sessions[id], ok)
  }

  ghost predicate CleanTable(t: Table) {
    forall k | k in t :: TabFree(t[k].record)
  }

  // ---- the names in use ------------------------------------------------------------------------------

  lemma NextNames(c: Control, a: Action, ok: Principal -> bool)
    requires CleanSessions(c, ok) && CleanAction(a, ok)
    ensures CleanSessions(Next(c, a), ok)
  {
    if OfOneSession(a) && a.id in c.sessions {
      StepNames(c, a.id, a);
    }
  }

  // ---- the records ------------------------------------------------------------------------------------

  lemma RecordIsTabFree(c: Control, id: string, s: Session, tunnelId: string, key: string)
    requires NoTab(id) && NoTab(s.node) && NoTab(s.addr) && NoTab(s.principal.accountId) && NoTab(tunnelId) && NoTab(key)
    ensures TabFree(RecordOf(c, id, s, tunnelId, key))
  {
  }

  lemma PermittedHasNoTab(p: Principal, base: string, k: string)
    requires CleanPrincipal(p) && !TabbedBase(base) && PermittedKey(p, base, k)
    ensures NoTab(k)
  {
    var key :| Permitted(p, base, key) && StorageKey(key) == k;
    TabbedKeysExactly(p, base);
  }

  lemma ClaimedKey(c: Control, id: string)
    requires CtlInv(c) && id in c.sessions && c.sessions[id].loop.Claiming?
    ensures PermittedKey(c.sessions[id].principal, c.base, c.sessions[id].loop.key)
  {
    assert SessionOk(c.base, c.sessions[id]);
  }

  /** What a session is about to claim. */
  lemma ClaimIsTabFree(c: Control, id: string)
    requires CtlInv(c) && !TabbedBase(c.base) && id in c.sessions && c.sessions[id].loop.Claiming?
    requires CleanSession(id, c.sessions[id], CleanPrincipal)
    ensures
      var s := c.sessions[id];
      TabFree(RecordOf(c, id, s, s.loop.tunnelId, s.loop.key))
  {
    var s := c.sessions[id];
    ClaimedKey(c, id);
    PermittedHasNoTab(s.principal, c.base, s.loop.key);
    RecordIsTabFree(c, id, s, s.loop.tunnelId, s.loop.key);
  }

  lemma CallClean(c: Control, op: Op)
    requires CleanTable(c.table) && (op.Claim? ==> TabFree(op.record))
    ensures CleanTable(Call(c, op).0)
  {
  }

  /** The table after a session step is the table, or what one of the session's calls makes of it. */
  lemma StepCalls(c: Control, id: string, a: Action)
    requires id in c.sessions && !a.DoClaim?
    ensures
      var t := SessionStep(c, id, c.sessions[id], a).table;
      || t == c.table
      || (exists op: Op :: !op.Claim? && t == Call(c, op).0)
  {
    var s := c.sessions[id];
    if a.DoRelease? && s.loop.Releasing? {
      var op := Op.Release(s.loop.key, id);
      assert !op.Claim? && Call(c, op).0 == Call(c, Op.Release(s.loop.key, id)).0;
    } else if a.TeardownRelease? {
      var op := Op.Release(a.key, id);
      assert !op.Claim? && Call(c, op).0 == Call(c, Op.Release(a.key, id)).0;
    } else if a.RenewOne? && s.beat.Round? && a.tunnelId in s.beat.todo {
      var op := Op.Renew(s.beat.todo[a.tunnelId], id, c.ttl);
      assert !op.Claim? && Call(c, op).0 == Call(c, Op.Renew(s.beat.todo[a.tunnelId], id, c.ttl)).0;
    }
  }

  lemma ClaimTable(c: Control, id: string, outcome: Outcome)
    requires id in c.sessions && CleanTable(c.table)
    requires
      var s := c.sessions[id];
      s.loop.Claiming? ==> TabFree(RecordOf(c, id, s, s.loop.tunnelId, s.loop.key))
    ensures CleanTable(StepClaim(c, id, c.sessions[id], outcome).table)
  {
    var s := c.sessions[id];
    if s.loop.Claiming? {
      CallClean(c, Op.Claim(RecordOf(c, id, s, s.loop.tunnelId, s.loop.key), c.ttl));
    }
  }

  lemma SessionTable(c: Control, id: string, a: Action)
    requires CtlInv(c) && !TabbedBase(c.base) && CleanTable(c.table)
    requires id in c.sessions && CleanSession(id, c.sessions[id], CleanPrincipal)
    ensures CleanTable(SessionStep(c, id, c.sessions[id], a).table)
  {
    if a.DoClaim? {
      if c.sessions[id].loop.Claiming? {
        ClaimIsTabFree(c, id);
      }
      ClaimTable(c, id, a.outcome);
    } else {
      StepCalls(c, id, a);
      var t := SessionStep(c, id, c.sessions[id], a).table;
      if t != c.table {
        var op: Op :| !op.Claim? && t == Call(c, op).0;
        CallClean(c, op);
      }
    }
  }

  lemma SharedTable(c: Control, a: Action)
    requires CleanTable(c.table) && !OfOneSession(a)
    ensures CleanTable(Next(c, a).table)
  {
    if a.CleanUp? {
      CallClean(c, Op.Release(a.key, a.session));
    }
  }

  lemma NextTable(c: Control, a: Action)
    requires CtlInv(c) && !TabbedBase(c.base) && CleanTable(c.table) && CleanSessions(c, CleanPrincipal)
    ensures CleanTable(Next(c, a).table)
  {
    if !OfOneSession(a) {
      SharedTable(c, a);
    } else if a.id in c.sessions {
      SessionTable(c, a.id, a);
    }
  }

  lemma SameBase(c: Control, a: Action)
    ensures Next(c, a).base == c.base
  {
  }

  lemma {:induction false} ExecClean(c: Control, acts: seq<Action>)
    requires CtlInv(c) && !TabbedBase(c.base) && CleanTable(c.table) && CleanSessions(c, CleanPrincipal)
    requires forall i | 0 <= i < |acts| :: CleanAction(acts[i], CleanPrincipal)
    ensures
      var c' := Exec(c, acts);
      CtlInv(c') && c'.base == c.base && CleanTable(c'.table) && CleanSessions(c', CleanPrincipal)
    decreases |acts|
  {
    if acts != [] {
      assert CleanAction(acts[0], CleanPrincipal);
      NextTable(c, acts[0]);
      NextNames(c, acts[0], CleanPrincipal);
      NextKeeps(c, acts[0]);
      SameBase(c, acts[0]);
      ExecClean(Next(c, acts[0]), acts[1..]);
    }
  }

  /** In every run over names without tabs, and accounts whose domains cover no key with one, every
      record in the table and every record about to be claimed is free of tabs; so on a store that
      shows the table every call with a positive lifetime answers as `Control` has it. */
  lemma RunsAreTabFree(base: string, ttl: nat, acts: seq<Action>)
    ensures
      var c := ControlTheorems.Reached(base, ttl, acts);
      !TabbedBase(base) && (forall i | 0 <= i < |acts| :: CleanAction(acts[i], CleanPrincipal)) ==>
        && CleanTable(c.table)
        && (forall id | id in c.sessions && c.sessions[id].loop.Claiming? ::
              TabFree(RecordOf(c, id, c.sessions[id], c.sessions[id].loop.tunnelId, c.sessions[id].loop.key)))
        && (forall op: Op ::
              RedisRegistry.ReadsRight(c.table, c.now, op) && RedisRegistry.ActsRight(c.table, c.now, op))
  {
    if !TabbedBase(base) && forall i | 0 <= i < |acts| :: CleanAction(acts[i], CleanPrincipal) {
      ControlTheorems.ReachedOk(base, ttl, []);
      var c := ControlTheorems.Reached(base, ttl, acts);
      ExecClean(Init(base, ttl), acts);
      forall id | id in c.sessions && c.sessions[id].loop.Claiming?
        ensures TabFree(RecordOf(c, id, c.sessions[id], c.sessions[id].loop.tunnelId, c.sessions[id].loop.key))
      {
        ClaimIsTabFree(c, id);
      }
      forall op: Op
        ensures RedisRegistry.ReadsRight(c.table, c.now, op) && RedisRegistry.ActsRight(c.table, c.now, op)
      {
        RedisRegistry.TabFreeIsRight(c.table, c.now, op);
      }
    }
  }
}
