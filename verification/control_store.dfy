/** The control plane over the shared store: the machine of `Control` with every registry call made as
    a script on the store instead of on the lease table. */
module ControlStore {
  import opened Wrappers
  import opened Codec
  import opened Lease
  import opened Routing
  import opened Registration
  import opened Control
  import opened ControlRuns
  import opened ControlCalls
  import opened ControlTabs
  import ControlTheorems
  import Redis = RedisRegistry

  datatype Over = Over(bare: Control, store: Redis.Store)

  function NextOver(prefix: string, o: Over, a: Action): Over {
    match OpOf(o.bare, a)
    case None => o.(bare := Next(o.bare, a))
    case Some(op) =>
      var (store, answer) := Redis.Call(o.store, prefix, o.bare.now, op);
      Over(Resume(o.bare, a, answer), store)
  }

  function ExecOver(prefix: string, o: Over, acts: seq<Action>): Over
    decreases |acts|
  {
    if acts == [] then o else ExecOver(prefix, NextOver(prefix, o, acts[0]), acts[1..])
  }

  // ---- both machines step together ------------------------------------------------------------------

  /** The machine over the store is where the one over the table is, and the store shows the table. */
  ghost predicate Alike(prefix: string, o: Over, c: Control) {
    o.bare == Bare(c) && Redis.Mirrors(o.store, prefix, c.table, c.now)
  }

  /** The call of the step, if there is one, reads and acts right. */
  predicate RightStep(c: Control, a: Action) {
    match OpOf(c, a)
    case None => true
    case Some(op) => Redis.ReadsRight(c.table, c.now, op) && Redis.ActsRight(c.table, c.now, op)
  }

  lemma MirrorsLater(store: Redis.Store, prefix: string, t: Table, now: nat, later: nat)
    requires Redis.Mirrors(store, prefix, t, now) && now <= later
    ensures Redis.Mirrors(store, prefix, t, later)
  {
    forall k
      ensures k in Live(t, later) <==> Redis.Get(store, Redis.StoreKey(prefix, k), later).Some?
    {
      assert k in Live(t, now) <==> Redis.Get(store, Redis.StoreKey(prefix, k), now).Some?;
    }
  }

  lemma OpLasts(c: Control, a: Action)
    requires OpOf(c, a).Some? && c.ttl > 0
    ensures Redis.Lasting(OpOf(c, a).value)
  {
  }

  /** The call on the store gives the answer of the table and goes on showing it. */
  lemma CallAnswers(prefix: string, o: Over, c: Control, op: Op)
    requires Alike(prefix, o, c) && Redis.Lasting(op)
    requires Redis.ReadsRight(c.table, c.now, op) && Redis.ActsRight(c.table, c.now, op)
    ensures
      var (store, answer) := Redis.Call(o.store, prefix, c.now, op);
      answer == Call(c, op).1 && Redis.Mirrors(store, prefix, Call(c, op).0, c.now)
  {
    Redis.CallExactly(o.store, prefix, c.table, c.now, op);
    Redis.RightMirrors(o.store, prefix, c.table, c.now, op, c.now);
  }

  /** A lookup writes nothing to the store either. */
  lemma LookUpStores(prefix: string, store: Redis.Store, now: nat, key: string)
    ensures Redis.Call(store, prefix, now, Op.Lookup(key)).0 == store
  {
  }

  /** The rest of the step sees the same answer. */
  lemma ResumeAlike(prefix: string, o: Over, c: Control, a: Action)
    requires o.bare == Bare(c) && OpOf(c, a).Some?
    requires Redis.Call(o.store, prefix, c.now, OpOf(c, a).value).1 == Call(c, OpOf(c, a).value).1
    ensures NextOver(prefix, o, a).bare == Bare(Next(c, a))
    ensures NextOver(prefix, o, a).store == Redis.Call(o.store, prefix, c.now, OpOf(c, a).value).0
  {
    SameOp(c, a);
    NextResumes(c, a);
    ResumeIsBare(c, a, Call(c, OpOf(c, a).value).1);
  }

  lemma LookUpAlike(prefix: string, o: Over, c: Control, a: Action)
    requires Alike(prefix, o, c) && a.LookUp? && RightStep(c, a)
    ensures Alike(prefix, NextOver(prefix, o, a), Next(c, a))
  {
    CallAnswers(prefix, o, c, Op.Lookup(a.key));
    ResumeAlike(prefix, o, c, a);
    TableNow(c, a);
    LookUpStores(prefix, o.store, c.now, a.key);
  }

  lemma WriteAlike(prefix: string, o: Over, c: Control, a: Action)
    requires Alike(prefix, o, c) && OpOf(c, a).Some? && !a.LookUp? && RightStep(c, a) && c.ttl > 0
    ensures Alike(prefix, NextOver(prefix, o, a), Next(c, a))
  {
    OpLasts(c, a);
    CallAnswers(prefix, o, c, OpOf(c, a).value);
    ResumeAlike(prefix, o, c, a);
    TableNow(c, a);
  }

  /** The table and the clock after a step with a call. */
  lemma TableNow(c: Control, a: Action)
    requires OpOf(c, a).Some?
    ensures Next(c, a).now == c.now
    ensures Next(c, a).table == if a.LookUp? then c.table else Call(c, OpOf(c, a).value).0
  {
    NextResumes(c, a);
    ClockMoves(c, a);
  }

  lemma NextAlike(prefix: string, o: Over, c: Control, a: Action)
    requires Alike(prefix, o, c) && RightStep(c, a) && c.ttl > 0
    ensures Alike(prefix, NextOver(prefix, o, a), Next(c, a))
  {
    SameOp(c, a);
    if OpOf(c, a).Some? {
      if a.LookUp? {
        LookUpAlike(prefix, o, c, a);
      } else {
        WriteAlike(prefix, o, c, a);
      }
    } else {
      NextWithout(c, a);
      NextClock(c, a);
      MirrorsLater(o.store, prefix, c.table, c.now, Next(c, a).now);
    }
  }

  /** Every call of the run reads and acts right on the table as it then is. */
  predicate RightRun(c: Control, acts: seq<Action>)
    decreases |acts|
  {
    acts == [] || (RightStep(c, acts[0]) && RightRun(Next(c, acts[0]), acts[1..]))
  }

  /** A run over the store is the run over the lease table, whatever the records hold, as long as
      every call reads and acts right. */
  lemma {:induction false} ExecAlike(prefix: string, o: Over, c: Control, acts: seq<Action>)
    requires Alike(prefix, o, c) && RightRun(c, acts) && c.ttl > 0
    ensures Alike(prefix, ExecOver(prefix, o, acts), Exec(c, acts))
    decreases |acts|
  {
    if acts != [] {
      NextAlike(prefix, o, c, acts[0]);
      NextClock(c, acts[0]);
      ExecAlike(prefix, NextOver(prefix, o, acts[0]), Next(c, acts[0]), acts[1..]);
    }
  }

  lemma {:induction false} CleanIsRight(c: Control, acts: seq<Action>)
    requires CtlInv(c) && !TabbedBase(c.base) && CleanTable(c.table) && CleanSessions(c, CleanPrincipal)
    requires forall i | 0 <= i < |acts| :: CleanAction(acts[i], CleanPrincipal)
    ensures RightRun(c, acts)
    decreases |acts|
  {
    if acts != [] {
      assert CleanAction(acts[0], CleanPrincipal);
      if OpOf(c, acts[0]).Some? {
        Redis.TabFreeIsRight(c.table, c.now, OpOf(c, acts[0]).value);
      }
      NextTable(c, acts[0]);
      NextNames(c, acts[0], CleanPrincipal);
      NextKeeps(c, acts[0]);
      SameBase(c, acts[0]);
      CleanIsRight(Next(c, acts[0]), acts[1..]);
    }
  }

  /** End to end: with a positive lifetime, names without tabs and accounts that can register no key
      with one, every run of the control plane over the shared store goes through the very states of
      the same run over the lease table, so all that is proved of `Control` holds over the store. */
  lemma StoreRunsAgree(prefix: string, base: string, ttl: nat, acts: seq<Action>)
    ensures
      var c := ControlTheorems.Reached(base, ttl, acts);
      ttl > 0 && !TabbedBase(base) && (forall i | 0 <= i < |acts| :: CleanAction(acts[i], CleanPrincipal)) ==>
        Alike(prefix, ExecOver(prefix, Over(Init(base, ttl), map[]), acts), c)
  {
    if ttl > 0 && !TabbedBase(base) && forall i | 0 <= i < |acts| :: CleanAction(acts[i], CleanPrincipal) {
      ControlTheorems.ReachedOk(base, ttl, []);
      CleanIsRight(Init(base, ttl), acts);
      ExecAlike(prefix, Over(Init(base, ttl), map[]), Init(base, ttl), acts);
    }
  }

  /** And after each such run any call with a lifetime is answered over the store as over the table. */
  lemma StoreRunsAnswer(prefix: string, base: string, ttl: nat, acts: seq<Action>, op: Op)
    requires Redis.Lasting(op)
    ensures
      var c := ControlTheorems.Reached(base, ttl, acts);
      var o := ExecOver(prefix, Over(Init(base, ttl), map[]), acts);
      ttl > 0 && !TabbedBase(base) && (forall i | 0 <= i < |acts| :: CleanAction(acts[i], CleanPrincipal)) ==>
        Redis.Call(o.store, prefix, o.bare.now, op).1 == Call(c, op).1
  {
    if ttl > 0 && !TabbedBase(base) && forall i | 0 <= i < |acts| :: CleanAction(acts[i], CleanPrincipal) {
      StoreRunsAgree(prefix, base, ttl, acts);
      RunsAreTabFree(base, ttl, acts);
      var c := ControlTheorems.Reached(base, ttl, acts);
      assert Redis.ReadsRight(c.table, c.now, op) && Redis.ActsRight(c.table, c.now, op);
      CallAnswers(prefix, ExecOver(prefix, Over(Init(base, ttl), map[]), acts), c, op);
    }
  }
}
