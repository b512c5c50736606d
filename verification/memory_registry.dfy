/** The process-local routing table: a map that is swept on access, except by `release`. */
module MemoryRegistry {
  import opened Wrappers
  import opened Codec
  import opened Lease

  /** One call on the stored map, which may hold entries that have expired. All but `release` sweep
      the map first and then go on as the lease table does; `release` looks at what is stored. */
  function Step(m: Table, e: Event): (Table, Answer) {
    match e.op
    case Claim(record, ttl) =>
      var swept := Live(m, e.now);
      if record.routingKey in swept && swept[record.routingKey].record.sessionId != record.sessionId
      then (swept, Claimed(Taken(swept[record.routingKey].record)))
      else (swept[record.routingKey := Entry(record, e.later + ttl)], Claimed(Acquired))
    case Lookup(key) =>
      var swept := Live(m, e.now);
      (swept, Found(if key in swept then Some(swept[key].record) else None))
    case Renew(key, session, ttl) =>
      var swept := Live(m, e.now);
      if Owned(swept, key, session)
      then (swept[key := Entry(swept[key].record, e.later + ttl)], Renewed(true))
      else (swept, Renewed(false))
    case Release(key, session) => (if Owned(m, key, session) then m - {key} else m, Released)
  }

  function StoredAfter(m: Table, h: seq<Event>): Table
    decreases |h|
  {
    if h == [] then m else Step(StoredAfter(m, h[..|h| - 1]), h[|h| - 1]).0
  }

  function StoredAnswers(m: Table, h: seq<Event>): seq<Answer>
    decreases |h|
  {
    if h == [] then []
    else StoredAnswers(m, h[..|h| - 1]) + [Step(StoredAfter(m, h[..|h| - 1]), h[|h| - 1]).1]
  }

  /** From the time of the call on, map and ideal table show the same entries. */
  lemma StepRefines(m: Table, t: Table, e: Event, now: nat)
    requires Live(m, e.now) == Live(t, e.now) && e.now <= e.later <= now
    ensures Step(m, e).1 == Ideal(t, e).1
    ensures Live(Step(m, e).0, now) == Live(Ideal(t, e).0, now)
  {
    if e.op.Release? {
      ReleaseShows(m, t, e, now);
    }
  }

  lemma ReleaseShows(m: Table, t: Table, e: Event, now: nat)
    requires e.op.Release? && Live(m, e.now) == Live(t, e.now) && e.now <= now
    ensures Live(Step(m, e).0, now) == Live(Ideal(t, e).0, now)
  {
    var k := e.op.key;
    var l := Live(t, e.now);
    forall j
      ensures j in Live(Step(m, e).0, now) <==> j in Live(Ideal(t, e).0, now)
      ensures j in Live(Step(m, e).0, now) ==> Live(Step(m, e).0, now)[j] == Live(Ideal(t, e).0, now)[j]
    {
      assert j in Live(m, e.now) <==> j in l;
      assert j in l ==> m[j] == l[j] by {
        assert j in l ==> Live(m, e.now)[j] == l[j];
      }
    }
  }

  /** Sweeping lazily, or not at all in `release`, cannot be observed: over every history the
      answers are those of the table whose entries vanish exactly at expiry. What there is to it are
      the dead entries that stay in the map, and the releases that meet them. */
  lemma {:induction false} RefinesIdeal(h: seq<Event>, now: nat)
    requires Ordered(h) && (h != [] ==> h[|h| - 1].later <= now)
    ensures StoredAnswers(map[], h) == Answers(map[], h)
    ensures Live(StoredAfter(map[], h), now) == Live(TableAfter(map[], h), now)
    decreases |h|
  {
    if h != [] {
      var before, e := h[..|h| - 1], h[|h| - 1];
      OrderedPrefix(h);
      RefinesIdeal(before, e.now);
      StepRefines(StoredAfter(map[], before), TableAfter(map[], before), e, now);
    }
  }

  /** The map can hold an entry that nobody can see any more. */
  lemma StoredMayBeDead()
    ensures
      var record := RouteRecord("api.tunnel.com", "node", "addr", "sess", "tun", "acct");
      var h := [Event(0, 0, Claim(record, 1)), Event(5, 5, Release("other", "sess"))];
      "api.tunnel.com" in StoredAfter(map[], h) && "api.tunnel.com" !in TableAfter(map[], h)
  {
    var record := RouteRecord("api.tunnel.com", "node", "addr", "sess", "tun", "acct");
    var e0, e1 := Event(0, 0, Claim(record, 1)), Event(5, 5, Release("other", "sess"));
    var h := [e0, e1];
    assert h[..1] == [e0] && [e0][..0] == [];
    assert StoredAfter(map[], [e0]) == map["api.tunnel.com" := Entry(record, 1)];
    assert TableAfter(map[], [e0]) == map["api.tunnel.com" := Entry(record, 1)];
    assert Live(TableAfter(map[], [e0]), 5) == map[];
  }

  /** The registry object. Each method holds the lock from its first clock reading to its last. */
  class Registry {
    var inner: map<string, Entry>

    constructor ()
      ensures inner == map[]
    {
      inner := map[];
    }

    /** `evict_expired`. */
    method EvictExpired(now: nat)
      modifies this
      ensures inner == Live(old(inner), now)
    {
      inner := map k | k in inner && inner[k].expiresAt > now :: inner[k];
    }

    method DoClaim(record: RouteRecord, ttl: nat, now: nat, later: nat) returns (claim: Claim)
      requires now <= later
      modifies this
      ensures (inner, Claimed(claim)) == Step(old(inner), Event(now, later, Claim(record, ttl)))
    {
      EvictExpired(now);
      if record.routingKey in inner && inner[record.routingKey].record.sessionId != record.sessionId {
        claim := Taken(inner[record.routingKey].record);
      } else {
        inner := inner[record.routingKey := Entry(record, later + ttl)];
        claim := Acquired;
      }
    }

    method DoLookup(key: string, now: nat) returns (found: Option<RouteRecord>)
      modifies this
      ensures (inner, Found(found)) == Step(old(inner), Event(now, now, Lookup(key)))
    {
      EvictExpired(now);
      found := if key in inner then Some(inner[key].record) else None;
    }

    method DoRenew(key: string, session: string, ttl: nat, now: nat, later: nat) returns (ok: bool)
      requires now <= later
      modifies this
      ensures (inner, Renewed(ok)) == Step(old(inner), Event(now, later, Renew(key, session, ttl)))
    {
      EvictExpired(now);
      ok := key in inner && inner[key].record.sessionId == session;
      if ok {
        inner := inner[key := Entry(inner[key].record, later + ttl)];
      }
    }

    method DoRelease(key: string, session: string, now: nat)
      modifies this
      ensures (inner, Released) == Step(old(inner), Event(now, now, Release(key, session)))
    {
      if key in inner && inner[key].record.sessionId == session {
        inner := inner - {key};
      }
    }
  }
}
