/** What holds of claims, sessions and cleanup in every run of the control plane. */
module ControlRuns {
  import opened Wrappers
  import opened Codec
  import opened Lease
  import opened Routing
  import opened Registration
  import opened Control

  /** Who answers for a key that the session has leased: one of its tunnels, the claim or close in
      progress, or, once the session ends, what teardown still has to release. */
  ghost predicate Accounted(s: Session, key: string) {
    match s.phase
    case Active =>
      || (exists t | t in s.tunnels :: s.tunnels[t] == key)
      || (s.loop.Inserting? && s.loop.key == key)
      || (s.loop.Releasing? && s.loop.key == key)
    case TearingDown(todo) => key in todo
    case Ended => false
  }

  ghost predicate PermittedKey(p: Principal, base: string, k: string) {
    exists key :: Permitted(p, base, key) && StorageKey(key) == k
  }

  /** The record tells where the session is, whose it is, and a tunnel that it took up for that key. */
  predicate Names(s: Session, r: RouteRecord) {
    && r.nodeId == s.node && r.nodeAddr == s.addr
    && r.accountId == s.principal.accountId
    && r.tunnelId in s.used && s.used[r.tunnelId] == r.routingKey
  }

  ghost predicate LeaseOk(c: Control, k: string) {
    k in Live(c.table, c.now) ==>
      var r := c.table[k].record;
      && r.routingKey == k
      && r.sessionId in c.sessions
      && Names(c.sessions[r.sessionId], r)
      && (Accounted(c.sessions[r.sessionId], k) || (k, r.sessionId) in c.unsure)
      && PermittedKey(c.sessions[r.sessionId].principal, c.base, k)
  }

  /** A tunnel the heartbeat is about to drop answers for nothing. */
  ghost predicate LostOk(c: Control, id: string)
    requires id in c.sessions
  {
    var s := c.sessions[id];
    s.beat.Lost? && s.phase.Active? ==>
      forall k | k in Live(c.table, c.now) && c.table[k].record.sessionId == id ::
        Accounted(s.(tunnels := s.tunnels - {s.beat.tunnelId}), k) || (k, id) in c.unsure
  }

  ghost predicate SessionOk(base: string, s: Session) {
    && (s.loop.Idle? || s.phase.Active?)
    && (forall t | t in s.tunnels :: t in s.used && s.used[t] == s.tunnels[t])
    && (s.principal.limits.maxTunnels > 0 ==> |s.tunnels| <= s.principal.limits.maxTunnels)
    && (s.loop.Claiming? || s.loop.Inserting? ==>
          && s.loop.tunnelId in s.used && s.used[s.loop.tunnelId] == s.loop.key && s.loop.tunnelId !in s.tunnels
          && PermittedKey(s.principal, base, s.loop.key)
          && (s.principal.limits.maxTunnels > 0 ==> |s.tunnels| < s.principal.limits.maxTunnels))
    && (s.beat.Round? || s.beat.Lost? ==>
          && s.beat.todo.Keys <= s.used.Keys
          && (forall t | t in s.beat.todo && t in s.tunnels :: s.tunnels[t] == s.beat.todo[t])
          && (s.loop.Claiming? || s.loop.Inserting? ==> s.loop.tunnelId !in s.beat.todo))
    && (s.beat.Lost? ==>
          && s.beat.tunnelId in s.used
          && (s.loop.Claiming? || s.loop.Inserting? ==> s.loop.tunnelId != s.beat.tunnelId))
  }

  ghost predicate Gone(c: Control, node: string, session: string) {
    session in c.sessions && c.sessions[session].node == node
  }

  ghost predicate CtlInv(c: Control) {
    && (forall k :: LeaseOk(c, k))
    && (forall id | id in c.sessions :: SessionOk(c.base, c.sessions[id]) && LostOk(c, id))
    && (forall f | f in c.found :: Gone(c, f.0, f.2))
    && (forall f | f in c.stale :: f.1 in c.sessions && c.sessions[f.1].phase.Ended?)
  }

  // ---- steps of the table --------------------------------------------------------------------

  /** What one session's call does to the leases: entries of other sessions are left as they are,
      nothing comes to life but what the session claims, and the clock stands still. */
  ghost predicate CallBy(c: Control, t: Table, id: string) {
    && (forall k | k in Live(t, c.now) && t[k].record.sessionId != id :: k in Live(c.table, c.now) && t[k] == c.table[k])
    && (forall k | k in Live(c.table, c.now) && c.table[k].record.sessionId != id :: k in Live(t, c.now) && t[k] == c.table[k])
  }

  /** And it adds no key to what the session holds. */
  ghost predicate AddsNothing(c: Control, t: Table, id: string) {
    forall k | k in Live(t, c.now) && t[k].record.sessionId == id ::
      k in Live(c.table, c.now) && t[k].record == c.table[k].record
  }

  lemma ReleaseCall(c: Control, key: string, id: string)
    ensures
      var t := Call(c, Op.Release(key, id)).0;
      && CallBy(c, t, id) && AddsNothing(c, t, id)
      && (key in Live(t, c.now) ==> t[key].record.sessionId != id)
      && (forall k | k != key && k in Live(c.table, c.now) :: k in Live(t, c.now) && t[k] == c.table[k])
  {
  }

  lemma RenewCall(c: Control, key: string, id: string)
    ensures
      var (t, answer) := Call(c, Op.Renew(key, id, c.ttl));
      && CallBy(c, t, id) && AddsNothing(c, t, id)
      && (answer == Renewed(false) ==> !Owned(Live(t, c.now), key, id))
      && (forall k | k != key && k in Live(c.table, c.now) :: k in Live(t, c.now) && t[k] == c.table[k])
      && (key !in Live(c.table, c.now) ==> key !in Live(t, c.now))
  {
  }

  lemma ClaimCall(c: Control, record: RouteRecord)
    ensures
      var (t, answer) := Call(c, Op.Claim(record, c.ttl));
      && CallBy(c, t, record.sessionId)
      && (answer != Claimed(Acquired) ==> AddsNothing(c, t, record.sessionId))
      && (forall k | k != record.routingKey ::
            && (k in Live(t, c.now) ==> k in Live(c.table, c.now) && t[k] == c.table[k])
            && (k in Live(c.table, c.now) ==> k in Live(t, c.now)))
      && (answer == Claimed(Acquired) && record.routingKey in Live(t, c.now) ==> t[record.routingKey].record == record)
  {
  }

  /** What the invariant asks of a lease `k` that the session itself holds. */
  ghost predicate OwnOk(base: string, s: Session, id: string, r: RouteRecord, unsure: set<(string, string)>, k: string) {
    && r.routingKey == k && Names(s, r) && PermittedKey(s.principal, base, k)
    && (Accounted(s, k) || (k, id) in unsure)
    && (s.beat.Lost? && s.phase.Active? ==> Accounted(s.(tunnels := s.tunnels - {s.beat.tunnelId}), k) || (k, id) in unsure)
  }

  lemma OwnLeases(c: Control, id: string, k: string)
    requires CtlInv(c) && id in c.sessions && k in Live(c.table, c.now) && c.table[k].record.sessionId == id
    ensures OwnOk(c.base, c.sessions[id], id, c.table[k].record, c.unsure, k)
  {
    assert LeaseOk(c, k);
    assert LostOk(c, id);
  }

  /** A session's step says nothing of what others have left behind. */
  ghost predicate OthersLeft(unsure: set<(string, string)>, unsure': set<(string, string)>, id: string) {
    forall u | u in unsure && u.1 != id :: u in unsure'
  }

  /** One session and the table move; what that asks of one key. */
  lemma LeaseMoves(c: Control, id: string, s: Session, t: Table, unsure: set<(string, string)>, k: string)
    requires id in c.sessions && LeaseOk(c, k)
    requires CallBy(c, t, id) && OthersLeft(c.unsure, unsure, id)
    requires k in Live(t, c.now) && t[k].record.sessionId == id ==> OwnOk(c.base, s, id, t[k].record, unsure, k)
    ensures LeaseOk(With(c, id, s).(table := t, unsure := unsure), k)
  {
  }

  lemma OthersMove(c: Control, id: string, s: Session, t: Table, unsure: set<(string, string)>, j: string)
    requires id in c.sessions && j in c.sessions && j != id && LostOk(c, j)
    requires CallBy(c, t, id) && OthersLeft(c.unsure, unsure, id)
    ensures LostOk(With(c, id, s).(table := t, unsure := unsure), j)
  {
  }

  /** What the session's own leases ask of the lost tunnel. */
  lemma OwnLost(c: Control, id: string, s: Session, t: Table, unsure: set<(string, string)>)
    requires id in c.sessions
    requires forall k | k in Live(t, c.now) && t[k].record.sessionId == id :: OwnOk(c.base, s, id, t[k].record, unsure, k)
    ensures LostOk(With(c, id, s).(table := t, unsure := unsure), id)
  {
  }

  lemma LeasesMove(c: Control, id: string, s: Session, t: Table, unsure: set<(string, string)>)
    requires id in c.sessions && (forall k :: LeaseOk(c, k))
    requires CallBy(c, t, id) && OthersLeft(c.unsure, unsure, id)
    requires forall k | k in Live(t, c.now) && t[k].record.sessionId == id :: OwnOk(c.base, s, id, t[k].record, unsure, k)
    ensures forall k :: LeaseOk(With(c, id, s).(table := t, unsure := unsure), k)
  {
    forall k
      ensures LeaseOk(With(c, id, s).(table := t, unsure := unsure), k)
    {
      assert LeaseOk(c, k);
      LeaseMoves(c, id, s, t, unsure, k);
    }
  }

  /** The session `id` moved to `s`, with a call of its own that left the table `t`. */
  lemma SessionMoves(c: Control, id: string, s: Session, t: Table, unsure: set<(string, string)>)
    requires CtlInv(c) && id in c.sessions
    requires CallBy(c, t, id) && OthersLeft(c.unsure, unsure, id)
    requires s.node == c.sessions[id].node && s.addr == c.sessions[id].addr && s.principal == c.sessions[id].principal
    requires SessionOk(c.base, s) && (c.sessions[id].phase.Ended? ==> s.phase.Ended?)
    requires forall k | k in Live(t, c.now) && t[k].record.sessionId == id :: OwnOk(c.base, s, id, t[k].record, unsure, k)
    ensures CtlInv(With(c, id, s).(table := t, unsure := unsure))
  {
    var c' := With(c, id, s).(table := t, unsure := unsure);
    LeasesMove(c, id, s, t, unsure);
    OwnLost(c, id, s, t, unsure);
    forall j | j in c'.sessions
      ensures SessionOk(c'.base, c'.sessions[j]) && LostOk(c', j)
    {
      if j != id {
        assert LostOk(c, j);
        OthersMove(c, id, s, t, unsure, j);
      }
    }
  }

  /** As before, when the table was left alone. */
  lemma SessionSteps(c: Control, id: string, s: Session)
    requires CtlInv(c) && id in c.sessions
    requires s.node == c.sessions[id].node && s.addr == c.sessions[id].addr && s.principal == c.sessions[id].principal
    requires SessionOk(c.base, s) && (c.sessions[id].phase.Ended? ==> s.phase.Ended?)
    requires forall k | k in Live(c.table, c.now) && c.table[k].record.sessionId == id ::
      OwnOk(c.base, c.sessions[id], id, c.table[k].record, c.unsure, k) ==> OwnOk(c.base, s, id, c.table[k].record, c.unsure, k)
    ensures CtlInv(With(c, id, s))
  {
    forall k | k in Live(c.table, c.now) && c.table[k].record.sessionId == id
      ensures OwnOk(c.base, s, id, c.table[k].record, c.unsure, k)
    {
      OwnLeases(c, id, k);
    }
    SessionMoves(c, id, s, c.table, c.unsure);
    assert With(c, id, s) == With(c, id, s).(table := c.table, unsure := c.unsure);
  }

  // ---- each step keeps the invariant --------------------------------------------------------------

  function Asking(s: Session, tunnelId: string, key: string): Session {
    s.(used := s.used[tunnelId := key], loop := Claiming(tunnelId, key))
  }

  lemma AskingOk(base: string, s: Session, tunnelId: string, key: string)
    requires SessionOk(base, s) && s.phase.Active? && tunnelId !in s.used && PermittedKey(s.principal, base, key)
    requires s.principal.limits.maxTunnels > 0 ==> |s.tunnels| < s.principal.limits.maxTunnels
    ensures SessionOk(base, Asking(s, tunnelId, key))
  {
  }

  lemma AskingOwns(base: string, s: Session, tunnelId: string, key: string, id: string, r: RouteRecord, unsure: set<(string, string)>, k: string)
    requires s.loop.Idle? && s.phase.Active? && tunnelId !in s.used && OwnOk(base, s, id, r, unsure, k)
    ensures OwnOk(base, Asking(s, tunnelId, key), id, r, unsure, k)
  {
  }

  lemma AskingKeeps(c: Control, id: string, tunnelId: string, key: string)
    requires CtlInv(c) && id in c.sessions
    requires
      var s := c.sessions[id];
      && s.phase.Active? && s.loop.Idle? && tunnelId !in s.used && PermittedKey(s.principal, c.base, key)
      && (s.principal.limits.maxTunnels > 0 ==> |s.tunnels| < s.principal.limits.maxTunnels)
    ensures CtlInv(With(c, id, Asking(c.sessions[id], tunnelId, key)))
  {
    var s := c.sessions[id];
    AskingOk(c.base, s, tunnelId, key);
    forall k | k in Live(c.table, c.now) && OwnOk(c.base, s, id, c.table[k].record, c.unsure, k)
      ensures OwnOk(c.base, Asking(s, tunnelId, key), id, c.table[k].record, c.unsure, k)
    {
      AskingOwns(c.base, s, tunnelId, key, id, c.table[k].record, c.unsure, k);
    }
    SessionSteps(c, id, Asking(s, tunnelId, key));
  }

  lemma RequestKeeps(c: Control, id: string, spec: TunnelSpec, tunnelId: string, generated: string)
    requires CtlInv(c) && id in c.sessions
    ensures CtlInv(StepRequest(c, id, c.sessions[id], spec, tunnelId, generated))
  {
    var s := c.sessions[id];
    var c' := StepRequest(c, id, s, spec, tunnelId, generated);
    if c' != c {
      var key := Resolve(s.principal, c.base, generated, spec).value;
      ResolvedIsPermitted(s.principal, c.base, generated, spec);
      assert PermittedKey(s.principal, c.base, StorageKey(key));
      AskingKeeps(c, id, tunnelId, StorageKey(key));
    }
  }

  lemma ClaimKeeps(c: Control, id: string, outcome: Outcome)
    requires CtlInv(c) && id in c.sessions
    ensures CtlInv(StepClaim(c, id, c.sessions[id], outcome))
  {
    var s := c.sessions[id];
    if s.loop.Claiming? {
      var key := s.loop.key;
      var record := RecordOf(c, id, s, s.loop.tunnelId, key);
      var (t, answer) := Call(c, Op.Claim(record, c.ttl));
      ClaimCall(c, record);
      var idle := s.(loop := Idle);
      if outcome.NoEffect? {
        SessionSteps(c, id, idle);
      } else if answer != Claimed(Acquired) {
        ClaimMoves(c, id, t, idle, c.unsure);
      } else if outcome.ReplyLost? {
        ClaimMoves(c, id, t, idle, c.unsure + {(key, id)});
      } else {
        ClaimMoves(c, id, t, s.(loop := Inserting(s.loop.tunnelId, key)), c.unsure - {(key, id)});
      }
    }
  }

  /** Where the answer to a claim leaves the session. */
  ghost predicate ClaimedTo(c: Control, id: string, t: Table, s': Session, unsure: set<(string, string)>)
    requires id in c.sessions && c.sessions[id].loop.Claiming?
  {
    var s := c.sessions[id];
    var key := s.loop.key;
    var (table, answer) := Call(c, Op.Claim(RecordOf(c, id, s, s.loop.tunnelId, key), c.ttl));
    && t == table
    && ((answer != Claimed(Acquired) && s' == s.(loop := Idle) && unsure == c.unsure)
        || (answer == Claimed(Acquired) && s' == s.(loop := Idle) && unsure == c.unsure + {(key, id)})
        || (answer == Claimed(Acquired) && s' == s.(loop := Inserting(s.loop.tunnelId, key)) && unsure == c.unsure - {(key, id)}))
  }

  lemma ClaimOwns(c: Control, id: string, t: Table, s': Session, unsure: set<(string, string)>, k: string)
    requires CtlInv(c) && id in c.sessions && c.sessions[id].loop.Claiming? && ClaimedTo(c, id, t, s', unsure)
    requires k in Live(t, c.now) && t[k].record.sessionId == id
    ensures OwnOk(c.base, s', id, t[k].record, unsure, k)
  {
    var s := c.sessions[id];
    ClaimCall(c, RecordOf(c, id, s, s.loop.tunnelId, s.loop.key));
    if k in Live(c.table, c.now) && c.table[k].record.sessionId == id {
      OwnLeases(c, id, k);
    }
  }

  lemma ClaimMoves(c: Control, id: string, t: Table, s': Session, unsure: set<(string, string)>)
    requires CtlInv(c) && id in c.sessions && c.sessions[id].loop.Claiming? && ClaimedTo(c, id, t, s', unsure)
    ensures CtlInv(With(c, id, s').(table := t, unsure := unsure))
  {
    var s := c.sessions[id];
    ClaimCall(c, RecordOf(c, id, s, s.loop.tunnelId, s.loop.key));
    forall k | k in Live(t, c.now) && t[k].record.sessionId == id
      ensures OwnOk(c.base, s', id, t[k].record, unsure, k)
    {
      ClaimOwns(c, id, t, s', unsure, k);
    }
    SessionMoves(c, id, s', t, unsure);
  }

  function Inserted(s: Session): Session
    requires s.loop.Inserting?
  {
    s.(tunnels := s.tunnels[s.loop.tunnelId := s.loop.key], loop := Idle)
  }

  lemma InsertedOk(base: string, s: Session)
    requires SessionOk(base, s) && s.loop.Inserting?
    ensures SessionOk(base, Inserted(s))
  {
    assert Inserted(s).tunnels.Keys == s.tunnels.Keys + {s.loop.tunnelId};
    assert |Inserted(s).tunnels.Keys| == |Inserted(s).tunnels| && |s.tunnels.Keys| == |s.tunnels|;
  }

  lemma InsertedOwns(base: string, s: Session, id: string, r: RouteRecord, unsure: set<(string, string)>, k: string)
    requires SessionOk(base, s) && s.loop.Inserting? && OwnOk(base, s, id, r, unsure, k)
    ensures OwnOk(base, Inserted(s), id, r, unsure, k)
  {
    if (k, id) !in unsure {
      StillAccounted(s, Inserted(s), k);
      if s.beat.Lost? {
        var lost := s.beat.tunnelId;
        assert Inserted(s).tunnels - {lost} == (s.tunnels - {lost})[s.loop.tunnelId := s.loop.key];
        StillAccounted(s.(tunnels := s.tunnels - {lost}), Inserted(s).(tunnels := Inserted(s).tunnels - {lost}), k);
      }
    }
  }

  lemma InsertKeeps(c: Control, id: string)
    requires CtlInv(c) && id in c.sessions
    ensures CtlInv(StepInsert(c, id, c.sessions[id]))
  {
    var s := c.sessions[id];
    if s.loop.Inserting? {
      InsertedOk(c.base, s);
      forall k | k in Live(c.table, c.now) && OwnOk(c.base, s, id, c.table[k].record, c.unsure, k)
        ensures OwnOk(c.base, Inserted(s), id, c.table[k].record, c.unsure, k)
      {
        InsertedOwns(c.base, s, id, c.table[k].record, c.unsure, k);
      }
      SessionSteps(c, id, Inserted(s));
    }
  }

  lemma StillAccounted(s: Session, s': Session, k: string)
    requires s.phase.Active? && s'.phase.Active? && Accounted(s, k)
    requires s.loop.Inserting? && s.loop.tunnelId !in s.tunnels && s'.tunnels == s.tunnels[s.loop.tunnelId := s.loop.key]
    ensures Accounted(s', k)
  {
    if s.loop.key == k {
      assert s'.tunnels[s.loop.tunnelId] == k;
    } else {
      var t :| t in s.tunnels && s.tunnels[t] == k;
      assert s'.tunnels[t] == k;
    }
  }

  function Closed(s: Session, tunnelId: string): Session
    requires tunnelId in s.tunnels
  {
    s.(tunnels := s.tunnels - {tunnelId}, loop := Releasing(s.tunnels[tunnelId]))
  }

  lemma ClosedOk(base: string, s: Session, tunnelId: string)
    requires SessionOk(base, s) && s.phase.Active? && tunnelId in s.tunnels
    ensures SessionOk(base, Closed(s, tunnelId))
  {
    assert Closed(s, tunnelId).tunnels.Keys == s.tunnels.Keys - {tunnelId};
    assert |Closed(s, tunnelId).tunnels.Keys| == |Closed(s, tunnelId).tunnels| && |s.tunnels.Keys| == |s.tunnels|;
  }

  lemma ClosedOwns(base: string, s: Session, tunnelId: string, id: string, r: RouteRecord, unsure: set<(string, string)>, k: string)
    requires s.phase.Active? && s.loop.Idle? && tunnelId in s.tunnels && OwnOk(base, s, id, r, unsure, k)
    ensures OwnOk(base, Closed(s, tunnelId), id, r, unsure, k)
  {
    var s' := Closed(s, tunnelId);
    NowReleasing(s, s', tunnelId, k);
    if s.beat.Lost? {
      var lost := s.beat.tunnelId;
      assert s'.tunnels - {lost} == (s.tunnels - {lost}) - {tunnelId};
      NowReleasing(s.(tunnels := s.tunnels - {lost}), s'.(tunnels := s'.tunnels - {lost}), tunnelId, k);
    }
  }

  lemma CloseKeeps(c: Control, id: string, tunnelId: string)
    requires CtlInv(c) && id in c.sessions
    ensures CtlInv(StepClose(c, id, c.sessions[id], tunnelId))
  {
    var s := c.sessions[id];
    if s.phase.Active? && s.loop.Idle? && tunnelId in s.tunnels {
      ClosedOk(c.base, s, tunnelId);
      forall k | k in Live(c.table, c.now) && OwnOk(c.base, s, id, c.table[k].record, c.unsure, k)
        ensures OwnOk(c.base, Closed(s, tunnelId), id, c.table[k].record, c.unsure, k)
      {
        ClosedOwns(c.base, s, tunnelId, id, c.table[k].record, c.unsure, k);
      }
      SessionSteps(c, id, Closed(s, tunnelId));
    }
  }

  lemma NowReleasing(s: Session, s': Session, tunnelId: string, k: string)
    requires s.phase.Active? && s'.phase.Active? && s.loop.Idle?
    requires s'.tunnels == s.tunnels - {tunnelId} && s'.loop.Releasing?
    requires tunnelId in s.tunnels ==> s'.loop.key == s.tunnels[tunnelId]
    ensures Accounted(s, k) ==> Accounted(s', k)
  {
    if Accounted(s, k) {
      var t :| t in s.tunnels && s.tunnels[t] == k;
      if t != tunnelId {
        assert s'.tunnels[t] == k;
      }
    }
  }

  lemma ReleaseKeeps(c: Control, id: string, outcome: Outcome)
    requires CtlInv(c) && id in c.sessions
    ensures CtlInv(StepRelease(c, id, c.sessions[id], outcome))
  {
    var s := c.sessions[id];
    if s.loop.Releasing? {
      var s' := s.(loop := Idle);
      var key := s.loop.key;
      if outcome.NoEffect? {
        ReleaseMoves(c, id, c.table, s', c.unsure + {(key, id)}, key);
        assert With(c, id, s').(table := c.table, unsure := c.unsure + {(key, id)}) == With(c, id, s').(unsure := c.unsure + {(key, id)});
      } else {
        ReleaseCall(c, key, id);
        ReleaseMoves(c, id, Call(c, Op.Release(key, id)).0, s', c.unsure - {(key, id)}, key);
      }
    }
  }

  lemma ReleaseOwns(c: Control, id: string, t: Table, s': Session, unsure: set<(string, string)>, key: string, k: string)
    requires CtlInv(c) && id in c.sessions && c.unsure - {(key, id)} <= unsure
    requires CallBy(c, t, id) && AddsNothing(c, t, id)
    requires (key in Live(t, c.now) ==> t[key].record.sessionId != id) || (key, id) in unsure
    requires
      var s := c.sessions[id];
      || (s.loop.Releasing? && s.loop.key == key && s' == s.(loop := Idle))
      || (s.phase.TearingDown? && s' == s.(phase := TearingDown(s.phase.todo - {key})))
    requires k in Live(t, c.now) && t[k].record.sessionId == id
    ensures OwnOk(c.base, s', id, t[k].record, unsure, k)
  {
    OwnLeases(c, id, k);
    assert (k, id) in c.unsure - {(key, id)} || (k, id) !in c.unsure || k == key;
  }

  /** The session is done with `key`: it no longer holds it, or the failed release is on record. */
  lemma ReleaseMoves(c: Control, id: string, t: Table, s': Session, unsure: set<(string, string)>, key: string)
    requires CtlInv(c) && id in c.sessions && c.unsure - {(key, id)} <= unsure
    requires CallBy(c, t, id) && AddsNothing(c, t, id)
    requires (key in Live(t, c.now) ==> t[key].record.sessionId != id) || (key, id) in unsure
    requires
      var s := c.sessions[id];
      || (s.loop.Releasing? && s.loop.key == key && s' == s.(loop := Idle))
      || (s.phase.TearingDown? && s' == s.(phase := TearingDown(s.phase.todo - {key})))
    ensures CtlInv(With(c, id, s').(table := t, unsure := unsure))
  {
    forall k | k in Live(t, c.now) && t[k].record.sessionId == id
      ensures OwnOk(c.base, s', id, t[k].record, unsure, k)
    {
      ReleaseOwns(c, id, t, s', unsure, key, k);
    }
    assert forall u | u in c.unsure && u.1 != id :: u in c.unsure - {(key, id)};
    SessionMoves(c, id, s', t, unsure);
  }

  lemma TeardownKeeps(c: Control, id: string, key: string, outcome: Outcome)
    requires CtlInv(c) && id in c.sessions
    ensures CtlInv(StepTeardown(c, id, c.sessions[id], key, outcome))
  {
    var s := c.sessions[id];
    if s.phase.TearingDown? && key in s.phase.todo {
      var s' := s.(phase := TearingDown(s.phase.todo - {key}));
      if outcome.NoEffect? {
        ReleaseMoves(c, id, c.table, s', c.unsure + {(key, id)}, key);
        assert With(c, id, s').(table := c.table, unsure := c.unsure + {(key, id)}) == With(c, id, s').(unsure := c.unsure + {(key, id)});
      } else {
        ReleaseCall(c, key, id);
        ReleaseMoves(c, id, Call(c, Op.Release(key, id)).0, s', c.unsure - {(key, id)}, key);
      }
    }
  }

  lemma HangUpKeeps(c: Control, id: string)
    requires CtlInv(c) && id in c.sessions && c.sessions[id].phase.Active? && c.sessions[id].loop.Idle?
    ensures CtlInv(With(c, id, c.sessions[id].(phase := TearingDown(Keys(c.sessions[id].tunnels)))))
  {
    SessionSteps(c, id, c.sessions[id].(phase := TearingDown(Keys(c.sessions[id].tunnels))));
  }

  lemma FinishKeeps(c: Control, id: string)
    requires CtlInv(c) && id in c.sessions && c.sessions[id].phase == TearingDown({})
    ensures CtlInv(With(c, id, c.sessions[id].(phase := Ended)))
  {
    SessionSteps(c, id, c.sessions[id].(phase := Ended));
  }

  lemma BeatKeeps(c: Control, id: string, beat: Heartbeat)
    requires CtlInv(c) && id in c.sessions
    requires beat.Resting? || (beat.Round? && beat.todo == c.sessions[id].tunnels)
    ensures CtlInv(With(c, id, c.sessions[id].(beat := beat)))
  {
    SessionSteps(c, id, c.sessions[id].(beat := beat));
  }

  lemma DropKeeps(c: Control, id: string)
    requires CtlInv(c) && id in c.sessions && c.sessions[id].beat.Lost?
    ensures
      var s := c.sessions[id];
      CtlInv(With(c, id, s.(tunnels := s.tunnels - {s.beat.tunnelId}, beat := Round(s.beat.todo))))
  {
    var s := c.sessions[id];
    var s' := s.(tunnels := s.tunnels - {s.beat.tunnelId}, beat := Round(s.beat.todo));
    assert s'.tunnels.Keys == s.tunnels.Keys - {s.beat.tunnelId};
    assert |s'.tunnels.Keys| == |s'.tunnels| && |s.tunnels.Keys| == |s.tunnels|;
    SessionSteps(c, id, s');
  }

  lemma RenewKeeps(c: Control, id: string, tunnelId: string, outcome: Outcome)
    requires CtlInv(c) && id in c.sessions
    ensures CtlInv(StepRenew(c, id, c.sessions[id], tunnelId, outcome))
  {
    var s := c.sessions[id];
    if s.beat.Round? && tunnelId in s.beat.todo {
      var rest := s.beat.todo - {tunnelId};
      var key := s.beat.todo[tunnelId];
      var (t, answer) := Call(c, Op.Renew(key, id, c.ttl));
      if outcome.NoEffect? {
        SessionSteps(c, id, s.(beat := Round(rest)));
      } else if outcome.ReplyLost? || answer == Renewed(true) {
        RenewMoves(c, id, key, s.(beat := Round(rest)));
      } else {
        LostMoves(c, id, tunnelId, key);
      }
    }
  }

  lemma RenewMoves(c: Control, id: string, key: string, s': Session)
    requires CtlInv(c) && id in c.sessions && c.sessions[id].beat.Round?
    requires s'.beat.Round? && s' == c.sessions[id].(beat := s'.beat)
    requires s'.beat.todo.Keys <= c.sessions[id].beat.todo.Keys
    requires forall t | t in s'.beat.todo :: s'.beat.todo[t] == c.sessions[id].beat.todo[t]
    ensures CtlInv(With(c, id, s').(table := Call(c, Op.Renew(key, id, c.ttl)).0))
  {
    var t := Call(c, Op.Renew(key, id, c.ttl)).0;
    RenewCall(c, key, id);
    forall k | k in Live(t, c.now) && t[k].record.sessionId == id
      ensures OwnOk(c.base, s', id, t[k].record, c.unsure, k)
    {
      OwnLeases(c, id, k);
    }
    SessionMoves(c, id, s', t, c.unsure);
    assert With(c, id, s').(table := t, unsure := c.unsure) == With(c, id, s').(table := t);
  }

  /** A refused renewal means the session does not hold the key, so the tunnel it is about to drop
      answers for nothing. */
  lemma LostMoves(c: Control, id: string, tunnelId: string, key: string)
    requires CtlInv(c) && id in c.sessions && c.sessions[id].beat.Round?
    requires tunnelId in c.sessions[id].beat.todo && key == c.sessions[id].beat.todo[tunnelId]
    requires Call(c, Op.Renew(key, id, c.ttl)).1 == Renewed(false)
    ensures
      var s := c.sessions[id];
      CtlInv(With(c, id, s.(beat := Lost(tunnelId, s.beat.todo - {tunnelId}))).(table := Call(c, Op.Renew(key, id, c.ttl)).0))
  {
    var s := c.sessions[id];
    var s' := s.(beat := Lost(tunnelId, s.beat.todo - {tunnelId}));
    var t := Call(c, Op.Renew(key, id, c.ttl)).0;
    RenewCall(c, key, id);
    forall k | k in Live(t, c.now) && t[k].record.sessionId == id
      ensures OwnOk(c.base, s', id, t[k].record, c.unsure, k)
    {
      OwnLeases(c, id, k);
      assert k != key;
      WithoutOther(s, tunnelId, k);
    }
    SessionMoves(c, id, s', t, c.unsure);
    assert With(c, id, s').(table := t, unsure := c.unsure) == With(c, id, s').(table := t);
  }

  lemma WithoutOther(s: Session, tunnelId: string, k: string)
    requires tunnelId in s.tunnels ==> s.tunnels[tunnelId] != k
    ensures Accounted(s, k) ==> Accounted(s.(tunnels := s.tunnels - {tunnelId}), k)
  {
    if s.phase.Active? && exists t :: t in s.tunnels && s.tunnels[t] == k {
      var t :| t in s.tunnels && s.tunnels[t] == k;
      assert t in s.tunnels - {tunnelId} && (s.tunnels - {tunnelId})[t] == k;
    }
  }

  lemma ReadLoopKeeps(c: Control, a: Action, id: string)
    requires CtlInv(c) && id in c.sessions
    requires a.Request? || a.DoClaim? || a.DoInsert? || a.CloseTunnel? || a.DoRelease?
    ensures CtlInv(SessionStep(c, id, c.sessions[id], a))
  {
    match a
    case Request(_, spec, tunnelId, generated) => RequestKeeps(c, id, spec, tunnelId, generated);
    case DoClaim(_, outcome) => ClaimKeeps(c, id, outcome);
    case DoInsert(_) => InsertKeeps(c, id);
    case CloseTunnel(_, tunnelId) => CloseKeeps(c, id, tunnelId);
    case DoRelease(_, outcome) => ReleaseKeeps(c, id, outcome);
  }

  lemma DisconnectKeeps(c: Control, a: Action, id: string)
    requires CtlInv(c) && id in c.sessions
    requires a.HangUp? || a.TeardownRelease? || a.FinishTeardown?
    ensures CtlInv(SessionStep(c, id, c.sessions[id], a))
  {
    var s := c.sessions[id];
    match a
    case HangUp(_) => if s.phase.Active? && s.loop.Idle? { HangUpKeeps(c, id); }
    case TeardownRelease(_, key, outcome) => TeardownKeeps(c, id, key, outcome);
    case FinishTeardown(_) => if s.phase == TearingDown({}) { FinishKeeps(c, id); }
  }

  lemma RoundKeeps(c: Control, a: Action, id: string)
    requires CtlInv(c) && id in c.sessions && (a.Beat? || a.StopBeat?)
    ensures CtlInv(SessionStep(c, id, c.sessions[id], a))
  {
    var s := c.sessions[id];
    if a.Beat? && s.beat.Resting? && s.phase.Active? {
      BeatKeeps(c, id, Round(s.tunnels));
    } else if a.StopBeat? && s.beat.Round? {
      BeatKeeps(c, id, Resting);
    }
  }

  lemma DropLostKeeps(c: Control, a: Action, id: string)
    requires CtlInv(c) && id in c.sessions && a.DropLost?
    ensures CtlInv(SessionStep(c, id, c.sessions[id], a))
  {
    if c.sessions[id].beat.Lost? {
      DropKeeps(c, id);
    }
  }

  lemma HeartbeatKeeps(c: Control, a: Action, id: string)
    requires CtlInv(c) && id in c.sessions
    requires a.Beat? || a.RenewOne? || a.DropLost? || a.StopBeat?
    ensures CtlInv(SessionStep(c, id, c.sessions[id], a))
  {
    if a.RenewOne? {
      RenewKeeps(c, id, a.tunnelId, a.outcome);
    } else if a.DropLost? {
      DropLostKeeps(c, a, id);
    } else {
      RoundKeeps(c, a, id);
    }
  }

  lemma SessionStepKeeps(c: Control, a: Action, id: string)
    requires CtlInv(c) && id in c.sessions
    ensures CtlInv(SessionStep(c, id, c.sessions[id], a))
  {
    if a.Request? || a.DoClaim? || a.DoInsert? || a.CloseTunnel? || a.DoRelease? {
      ReadLoopKeeps(c, a, id);
    } else if a.HangUp? || a.TeardownRelease? || a.FinishTeardown? {
      DisconnectKeeps(c, a, id);
    } else if a.Beat? || a.RenewOne? || a.DropLost? || a.StopBeat? {
      HeartbeatKeeps(c, a, id);
    }
  }

  lemma ConnectKeeps(c: Control, id: string, node: string, addr: string, principal: Principal)
    requires CtlInv(c) && id !in c.sessions
    ensures CtlInv(With(c, id, Session(node, addr, principal, Active, map[], map[], Idle, Resting)))
  {
    var c' := With(c, id, Session(node, addr, principal, Active, map[], map[], Idle, Resting));
    forall k
      ensures LeaseOk(c', k)
    {
      assert LeaseOk(c, k);
    }
    forall j | j in c'.sessions
      ensures SessionOk(c'.base, c'.sessions[j]) && LostOk(c', j)
    {
      if j != id {
        assert LostOk(c, j);
      }
    }
  }

  lemma TickKeeps(c: Control, time: nat)
    requires CtlInv(c) && time >= c.now
    ensures CtlInv(c.(now := time))
  {
    var c' := c.(now := time);
    forall k
      ensures LeaseOk(c', k)
    {
      assert LeaseOk(c, k);
    }
    forall j | j in c'.sessions
      ensures LostOk(c', j)
    {
      assert LostOk(c, j);
    }
  }

  lemma LookUpKeeps(c: Control, node: string, key: string)
    requires CtlInv(c)
    ensures CtlInv(Next(c, LookUp(node, key)))
  {
    var c' := Next(c, LookUp(node, key));
    assert LeaseOk(c, key);
    assert c'.table == c.table && c'.sessions == c.sessions && c'.now == c.now && c'.unsure == c.unsure && c'.base == c.base;
    SameLeases(c, c');
  }

  lemma SameLeases(c: Control, c': Control)
    requires CtlInv(c)
    requires c'.table == c.table && c'.sessions == c.sessions && c'.now == c.now && c'.unsure == c.unsure && c'.base == c.base
    ensures forall k :: LeaseOk(c', k)
    ensures forall id | id in c'.sessions :: SessionOk(c'.base, c'.sessions[id]) && LostOk(c', id)
  {
    forall k
      ensures LeaseOk(c', k)
    {
      assert LeaseOk(c, k);
    }
    forall id | id in c'.sessions
      ensures LostOk(c', id)
    {
      assert LostOk(c, id);
    }
  }

  lemma CheckKeeps(c: Control, node: string, key: string, session: string)
    requires CtlInv(c)
    ensures CtlInv(Next(c, CheckSession(node, key, session)))
  {
    SameLeases(c, Next(c, CheckSession(node, key, session)));
  }

  /** What the release of a stale claim makes of the table. */
  lemma StaleReleaseKeeps(c: Control, key: string, session: string)
    requires CtlInv(c) && session in c.sessions
    ensures CtlInv(c.(table := Call(c, Op.Release(key, session)).0, unsure := c.unsure - {(key, session)}))
  {
    ReleaseCall(c, key, session);
    var t := Call(c, Op.Release(key, session)).0;
    var s := c.sessions[session];
    forall k | k in Live(t, c.now) && t[k].record.sessionId == session
      ensures OwnOk(c.base, s, session, t[k].record, c.unsure - {(key, session)}, k)
    {
      OwnLeases(c, session, k);
    }
    SessionMoves(c, session, s, t, c.unsure - {(key, session)});
    assert c.sessions[session := s] == c.sessions;
  }

  lemma CleanUpKeeps(c: Control, key: string, session: string, outcome: Outcome)
    requires CtlInv(c) && (key, session) in c.stale
    ensures CtlInv(Next(c, CleanUp(key, session, outcome)))
  {
    assert (key, session).1 in c.sessions;
    StaleReleaseKeeps(c, key, session);
    var c' := Next(c, CleanUp(key, session, outcome));
    if outcome.NoEffect? {
      SameLeases(c, c');
    } else {
      SameLeases(c.(table := Call(c, Op.Release(key, session)).0, unsure := c.unsure - {(key, session)}), c');
    }
  }

  lemma NextKeeps(c: Control, a: Action)
    requires CtlInv(c)
    ensures CtlInv(Next(c, a))
  {
    match a
    case Connect(id, node, addr, principal) => if id !in c.sessions { ConnectKeeps(c, id, node, addr, principal); }
    case LookUp(node, key) => LookUpKeeps(c, node, key);
    case CheckSession(node, key, session) => CheckKeeps(c, node, key, session);
    case CleanUp(key, session, outcome) => if (key, session) in c.stale { CleanUpKeeps(c, key, session, outcome); }
    case Tick(time) => if time >= c.now { TickKeeps(c, time); }
    case _ => if a.id in c.sessions { SessionStepKeeps(c, a, a.id); }
  }

  lemma {:induction false} ExecKeeps(c: Control, acts: seq<Action>)
    requires CtlInv(c)
    ensures CtlInv(Exec(c, acts))
    decreases |acts|
  {
    if acts != [] {
      NextKeeps(c, acts[0]);
      ExecKeeps(Next(c, acts[0]), acts[1..]);
    }
  }
}
