/** The shared routing table: three scripts over a string store whose keys expire, each run as one
    atomic step, and the calls around them. */
module RedisRegistry {
  import opened Wrappers
  import opened Codec
  import opened Lease

  datatype Stored = Stored(value: string, expiresAt: nat)

  type Store = map<string, Stored>

  /** GET: what is stored and has not expired. */
  function Get(store: Store, key: string, now: nat): Option<string> {
    if key in store && store[key].expiresAt > now then Some(store[key].value) else None
  }

  /** What the claim script leaves and returns. SET refuses an expiry of zero, and the script fails. */
  function ClaimScript(store: Store, key: string, encoded: string, ttl: nat, session: string, now: nat): (Store, Option<string>) {
    var current := Get(store, key, now);
    if current.Some? && LuaOwner(current.value) != Some(session) then (store, Some(current.value))
    else if ttl == 0 then (store, None)
    else (store[key := Stored(encoded, now + ttl)], Some(""))
  }

  /** PEXPIRE with zero deletes the key. */
  function RenewScript(store: Store, key: string, ttl: nat, session: string, now: nat): (Store, nat) {
    var current := Get(store, key, now);
    if current.None? || LuaOwner(current.value) != Some(session) then (store, 0)
    else if ttl == 0 then (store - {key}, 1)
    else (store[key := Stored(store[key].value, now + ttl)], 1)
  }

  function ReleaseScript(store: Store, key: string, session: string, now: nat): (Store, nat) {
    var current := Get(store, key, now);
    if current.None? || LuaOwner(current.value) != Some(session) then (store, 0)
    else (store - {key}, 1)
  }

  function StoreKey(prefix: string, routingKey: string): string {
    prefix + "route:" + routingKey
  }

  /** A call as the registry's client sees it. */
  function Call(store: Store, prefix: string, now: nat, op: Op): (Store, Answer) {
    match op
    case Claim(record, ttl) =>
      var (store', reply) := ClaimScript(store, StoreKey(prefix, record.routingKey), Encode(record), ttl, record.sessionId, now);
      if reply.None? then (store', Unavailable)
      else if reply.value == "" then (store', Claimed(Acquired))
      else (store', match Decode(reply.value)
                    case Success(owner) => Claimed(Taken(owner))
                    case Failure(_) => Unavailable)
    case Lookup(key) =>
      (match Get(store, StoreKey(prefix, key), now)
       case None => (store, Found(None))
       case Some(raw) =>
         (match Decode(raw)
          case Success(record) => (store, Found(Some(record)))
          case Failure(_) => (store, Unavailable)))
    case Renew(key, session, ttl) =>
      var (store', reply) := RenewScript(store, StoreKey(prefix, key), ttl, session, now);
      (store', Renewed(reply == 1))
    case Release(key, session) => (ReleaseScript(store, StoreKey(prefix, key), session, now).0, Released)
  }

  // ---- what the store shows ------------------------------------------------------------------------

  /** The store shows the table, whatever its records hold. */
  ghost predicate Mirrors(store: Store, prefix: string, t: Table, now: nat) {
    && (forall k :: (k in Live(t, now) <==> Get(store, StoreKey(prefix, k), now).Some?))
    && (forall k | k in Live(t, now) ::
          store[StoreKey(prefix, k)] == Stored(Encode(t[k].record), t[k].expiresAt))
  }

  lemma StoreKeyInjective(prefix: string, a: string, b: string)
    ensures StoreKey(prefix, a) == StoreKey(prefix, b) ==> a == b
  {
    var n := |prefix + "route:"|;
    assert StoreKey(prefix, a)[n..] == a && StoreKey(prefix, b)[n..] == b;
  }

  // ---- one call, whatever the records hold -----------------------------------------------------------

  predicate Lasting(op: Op) {
    op.Claim? || op.Renew? ==> op.ttl > 0
  }

  /** The scripts take the session for the owner exactly when it is. */
  predicate OwnerReads(r: RouteRecord, session: string) {
    LuaOwner(Encode(r)) == Some(session) <==> r.sessionId == session
  }

  /** When a call on what is stored under its key answers as the lease table does: the reader of a
      record needs it free of tabs, the scripts only need to read its owner right. */
  predicate ReadsRight(t: Table, now: nat, op: Op) {
    Key(op) in Live(t, now) ==>
      var r := t[Key(op)].record;
      match op
      case Lookup(_) => TabFree(r)
      case Renew(_, session, _) => OwnerReads(r, session)
      case Claim(record, _) => OwnerReads(r, record.sessionId) && (r.sessionId != record.sessionId ==> TabFree(r))
      case Release(_, _) => true
  }

  /** What is stored decodes; to the stored record exactly without tabs. */
  lemma StoredDecodes(r: RouteRecord)
    ensures Decode(Encode(r)).Success? && Encode(r) != ""
    ensures Decode(Encode(r)).value == r <==> TabFree(r)
  {
    RoundTrip(r);
    EncodeNonempty(r);
    EncodeJoins(r);
    JoinOccurrences(Fields(r), '\t');
    DecodeThenEncode(Encode(r));
  }

  /** Every call answers as the lease table does if and only if it reads right. */
  lemma CallExactly(store: Store, prefix: string, t: Table, now: nat, op: Op)
    requires Mirrors(store, prefix, t, now) && Lasting(op)
    ensures Call(store, prefix, now, op).1 == Ideal(t, Event(now, now, op)).1 <==> ReadsRight(t, now, op)
  {
    var k := Key(op);
    if k in Live(t, now) {
      var r := t[k].record;
      assert Get(store, StoreKey(prefix, k), now) == Some(Encode(r));
      StoredDecodes(r);
      match op
      case Claim(_, _) => ClaimExactly(store, prefix, t, now, op);
      case _ =>
    } else {
      assert Get(store, StoreKey(prefix, k), now).None?;
    }
  }

  lemma ClaimExactly(store: Store, prefix: string, t: Table, now: nat, op: Op)
    requires Mirrors(store, prefix, t, now) && Lasting(op) && op.Claim? && Key(op) in Live(t, now)
    ensures Call(store, prefix, now, op).1 == Ideal(t, Event(now, now, op)).1 <==> ReadsRight(t, now, op)
  {
    var r := t[Key(op)].record;
    assert Get(store, StoreKey(prefix, Key(op)), now) == Some(Encode(r));
    StoredDecodes(r);
  }

  /** The call decides about the owner as the lease table does, so that the store goes on showing it. */
  predicate ActsRight(t: Table, now: nat, op: Op) {
    Key(op) in Live(t, now) ==>
      match op
      case Lookup(_) => true
      case Renew(k, session, _) => OwnerReads(t[k].record, session)
      case Claim(record, _) => OwnerReads(t[record.routingKey].record, record.sessionId)
      case Release(k, session) => OwnerReads(t[k].record, session)
  }

  /** Writing one key of the store and the same entry of the table. */
  lemma PutMirrors(store: Store, prefix: string, t: Table, now: nat, k: string, entry: Entry, later: nat)
    requires Mirrors(store, prefix, t, now) && now <= later
    ensures Mirrors(store[StoreKey(prefix, k) := Stored(Encode(entry.record), entry.expiresAt)], prefix, Live(t, now)[k := entry], later)
  {
    forall j
      ensures StoreKey(prefix, j) == StoreKey(prefix, k) <==> j == k
    {
      StoreKeyInjective(prefix, j, k);
    }
  }

  lemma DropMirrors(store: Store, prefix: string, t: Table, now: nat, k: string, later: nat)
    requires Mirrors(store, prefix, t, now) && now <= later
    ensures Mirrors(store - {StoreKey(prefix, k)}, prefix, Live(t, now) - {k}, later)
  {
    forall j
      ensures StoreKey(prefix, j) == StoreKey(prefix, k) <==> j == k
    {
      StoreKeyInjective(prefix, j, k);
    }
  }

  lemma StillMirrors(store: Store, prefix: string, t: Table, now: nat, later: nat)
    requires Mirrors(store, prefix, t, now) && now <= later
    ensures Mirrors(store, prefix, Live(t, now), later)
  {
  }

  /** What a call that acts right writes. */
  lemma RightWrites(store: Store, prefix: string, t: Table, now: nat, op: Op)
    requires Mirrors(store, prefix, t, now) && Lasting(op) && ActsRight(t, now, op)
    ensures
      var (k, l) := (Key(op), Live(t, now));
      Call(store, prefix, now, op).0 ==
        match op
        case Lookup(_) => store
        case Claim(record, ttl) =>
          if k in l && t[k].record.sessionId != record.sessionId then store
          else store[StoreKey(prefix, k) := Stored(Encode(record), now + ttl)]
        case Renew(_, session, ttl) =>
          if Owned(l, k, session) then store[StoreKey(prefix, k) := Stored(Encode(t[k].record), now + ttl)] else store
        case Release(_, session) => if Owned(l, k, session) then store - {StoreKey(prefix, k)} else store
  {
    var k := Key(op);
    if k in Live(t, now) {
      assert Get(store, StoreKey(prefix, k), now) == Some(Encode(t[k].record));
    } else {
      assert Get(store, StoreKey(prefix, k), now).None?;
    }
  }

  lemma ClaimMirrors(store: Store, prefix: string, t: Table, now: nat, op: Op, later: nat)
    requires Mirrors(store, prefix, t, now) && Lasting(op) && ActsRight(t, now, op) && now <= later && op.Claim?
    ensures Mirrors(Call(store, prefix, now, op).0, prefix, Ideal(t, Event(now, now, op)).0, later)
  {
    var k := op.record.routingKey;
    RightWrites(store, prefix, t, now, op);
    if k in Live(t, now) && t[k].record.sessionId != op.record.sessionId {
      StillMirrors(store, prefix, t, now, later);
    } else {
      PutMirrors(store, prefix, t, now, k, Entry(op.record, now + op.ttl), later);
    }
  }

  lemma RenewMirrors(store: Store, prefix: string, t: Table, now: nat, op: Op, later: nat)
    requires Mirrors(store, prefix, t, now) && Lasting(op) && ActsRight(t, now, op) && now <= later && op.Renew?
    ensures Mirrors(Call(store, prefix, now, op).0, prefix, Ideal(t, Event(now, now, op)).0, later)
  {
    var k := op.key;
    RightWrites(store, prefix, t, now, op);
    if Owned(Live(t, now), k, op.session) {
      PutMirrors(store, prefix, t, now, k, Entry(t[k].record, now + op.ttl), later);
    } else {
      StillMirrors(store, prefix, t, now, later);
    }
  }

  lemma ReleaseMirrors(store: Store, prefix: string, t: Table, now: nat, op: Op, later: nat)
    requires Mirrors(store, prefix, t, now) && ActsRight(t, now, op) && now <= later && op.Release?
    ensures Mirrors(Call(store, prefix, now, op).0, prefix, Ideal(t, Event(now, now, op)).0, later)
  {
    RightWrites(store, prefix, t, now, op);
    if Owned(Live(t, now), op.key, op.session) {
      DropMirrors(store, prefix, t, now, op.key, later);
    } else {
      StillMirrors(store, prefix, t, now, later);
    }
  }

  /** A call that acts right leaves the store showing the table. */
  lemma RightMirrors(store: Store, prefix: string, t: Table, now: nat, op: Op, later: nat)
    requires Mirrors(store, prefix, t, now) && Lasting(op) && ActsRight(t, now, op) && now <= later
    ensures Mirrors(Call(store, prefix, now, op).0, prefix, Ideal(t, Event(now, now, op)).0, later)
  {
    match op
    case Lookup(_) =>
      RightWrites(store, prefix, t, now, op);
      StillMirrors(store, prefix, t, now, later);
    case Claim(_, _) => ClaimMirrors(store, prefix, t, now, op, later);
    case Renew(_, _, _) => RenewMirrors(store, prefix, t, now, op, later);
    case Release(_, _) => ReleaseMirrors(store, prefix, t, now, op, later);
  }

  // ---- histories ---------------------------------------------------------------------------------------

  function StoreAfter(store: Store, prefix: string, h: seq<Event>): Store
    decreases |h|
  {
    if h == [] then store
    else Call(StoreAfter(store, prefix, h[..|h| - 1]), prefix, h[|h| - 1].now, h[|h| - 1].op).0
  }

  function StoreAnswers(store: Store, prefix: string, h: seq<Event>): seq<Answer>
    decreases |h|
  {
    if h == [] then []
    else
      var before, e := h[..|h| - 1], h[|h| - 1];
      StoreAnswers(store, prefix, before) + [Call(StoreAfter(store, prefix, before), prefix, e.now, e.op).1]
  }

  /** Every call of the history reads and acts right, on the lease table as it then is. */
  ghost predicate AllRight(h: seq<Event>)
    decreases |h|
  {
    h == [] || (
      var (before, e) := (h[..|h| - 1], h[|h| - 1]);
      AllRight(before) && ReadsRight(TableAfter(map[], before), e.now, e.op) && ActsRight(TableAfter(map[], before), e.now, e.op))
  }

  /** Over every history of positive lifetimes, whatever the records hold: as long as every call
      reads and acts right, the scripts answer as the lease table does; and so does the next call
      if and only if it reads right. */
  lemma {:induction false} RefinesExactly(prefix: string, h: seq<Event>, now: nat, op: Op)
    requires Ordered(h) && (h != [] ==> h[|h| - 1].later <= now)
    requires forall i | 0 <= i < |h| :: Lasting(h[i].op) && h[i].now == h[i].later
    requires AllRight(h) && Lasting(op)
    ensures StoreAnswers(map[], prefix, h) == Answers(map[], h)
    ensures Mirrors(StoreAfter(map[], prefix, h), prefix, TableAfter(map[], h), now)
    ensures Call(StoreAfter(map[], prefix, h), prefix, now, op).1 == Ideal(TableAfter(map[], h), Event(now, now, op)).1
      <==> ReadsRight(TableAfter(map[], h), now, op)
    decreases |h|
  {
    if h != [] {
      var before, e := h[..|h| - 1], h[|h| - 1];
      OrderedPrefix(h);
      RefinesExactly(prefix, before, e.now, e.op);
      RightMirrors(StoreAfter(map[], prefix, before), prefix, TableAfter(map[], before), e.now, e.op, now);
    }
    CallExactly(StoreAfter(map[], prefix, h), prefix, TableAfter(map[], h), now, op);
  }

  // ---- records without tabs ------------------------------------------------------------------------------

  /** The store shows the table, and no record holds a tab. */
  ghost predicate Shows(store: Store, prefix: string, t: Table, now: nat) {
    Mirrors(store, prefix, t, now) && forall k | k in t :: TabFree(t[k].record)
  }

  predicate Tidy(op: Op) {
    Lasting(op) && (op.Claim? ==> TabFree(op.record))
  }

  /** Every call on such a table reads and acts right. */
  lemma TabFreeIsRight(t: Table, now: nat, op: Op)
    requires forall k | k in t :: TabFree(t[k].record)
    ensures ReadsRight(t, now, op) && ActsRight(t, now, op)
  {
    if Key(op) in Live(t, now) {
      OwnerOfRecord(t[Key(op)].record);
    }
  }

  /** Each call gives the answer of the lease table, a Taken answer being the exact stored owner,
      and leaves the store showing the table. */
  lemma CallSimulates(store: Store, prefix: string, t: Table, now: nat, op: Op, later: nat)
    requires Shows(store, prefix, t, now) && Tidy(op) && now <= later
    ensures Call(store, prefix, now, op).1 == Ideal(t, Event(now, now, op)).1
    ensures Shows(Call(store, prefix, now, op).0, prefix, Ideal(t, Event(now, now, op)).0, later)
  {
    TabFreeIsRight(t, now, op);
    CallExactly(store, prefix, t, now, op);
    RightMirrors(store, prefix, t, now, op, later);
  }

  /** Over every history of tab-free records and positive lifetimes, the scripts answer as the
      lease table does. */
  lemma {:induction false} RefinesIdeal(prefix: string, h: seq<Event>, later: nat)
    requires Ordered(h) && (h != [] ==> h[|h| - 1].later <= later)
    requires forall i | 0 <= i < |h| :: Tidy(h[i].op) && h[i].now == h[i].later
    ensures StoreAnswers(map[], prefix, h) == Answers(map[], h)
    ensures Shows(StoreAfter(map[], prefix, h), prefix, TableAfter(map[], h), later)
    decreases |h|
  {
    if h != [] {
      var before, e := h[..|h| - 1], h[|h| - 1];
      OrderedPrefix(h);
      RefinesIdeal(prefix, before, e.now);
      CallSimulates(StoreAfter(map[], prefix, before), prefix, TableAfter(map[], before), e.now, e.op, later);
    }
  }

  /** The lifetime must be positive: a claim of a free key is acquired, as the lease table would
      have it, exactly then. */
  lemma ClaimNeedsLifetime(store: Store, prefix: string, t: Table, now: nat, record: RouteRecord, ttl: nat)
    requires Mirrors(store, prefix, t, now) && record.routingKey !in Live(t, now)
    ensures Call(store, prefix, now, Claim(record, ttl)).1 == Ideal(t, Event(now, now, Claim(record, ttl))).1 <==> ttl > 0
  {
  }

  // ---- records with tabs -----------------------------------------------------------------------------------

  /** What the scripts tell the owner of a record whose key hides it: it can neither renew nor
      release its lease nor claim it again, and a lookup finds another record. */
  lemma HiddenOwnerIsStranger(store: Store, prefix: string, r: RouteRecord, now: nat, ttl: nat)
    requires Get(store, StoreKey(prefix, r.routingKey), now) == Some(Encode(r))
    requires LuaOwner(Encode(r)) != Some(r.sessionId)
    ensures Call(store, prefix, now, Renew(r.routingKey, r.sessionId, ttl)) == (store, Renewed(false))
    ensures Call(store, prefix, now, Release(r.routingKey, r.sessionId)) == (store, Released)
    ensures
      var (store', answer) := Call(store, prefix, now, Claim(r, ttl));
      store' == store && answer != Claimed(Acquired)
    ensures Call(store, prefix, now, Lookup(r.routingKey)).1 != Found(Some(r))
  {
    StoredDecodes(r);
    if TabFree(r) {
      OwnerOfRecord(r);
    }
  }

  /** With tabs in the key alone that is so for every owner but one named like the field the scripts
      read instead: the node's address, the node, or a part of the key. */
  lemma TabbedOwnerIsHidden(r: RouteRecord)
    requires TabFreeBesidesKey(r) && '\t' in r.routingKey
    ensures LuaOwner(Encode(r)) == Some(r.sessionId) <==>
      r.sessionId ==
        (if Occurrences(r.routingKey, '\t') == 1 then r.nodeAddr
         else if Occurrences(r.routingKey, '\t') == 2 then r.nodeId
         else Part(Split(r.routingKey, '\t'), 3))
  {
    OccurrencesIn(r.routingKey, '\t');
    OwnerOfTabbedKey(r);
  }
}
