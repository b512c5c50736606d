/** The routing table as a table of leases: what every implementation must look like, with entries
    that are gone exactly when they expire. */
module Lease {
  import opened Wrappers
  import opened Codec

  datatype Entry = Entry(record: RouteRecord, expiresAt: nat)

  type Table = map<string, Entry>

  datatype Claim = Acquired | Taken(owner: RouteRecord)

  datatype Op =
    | Claim(record: RouteRecord, ttl: nat)
    | Lookup(key: string)
    | Renew(key: string, session: string, ttl: nat)
    | Release(key: string, session: string)

  datatype Answer = Claimed(claim: Claim) | Found(record: Option<RouteRecord>) | Renewed(ok: bool) | Released | Unavailable

  /** A call reads the clock when it starts and, when it writes a deadline, once more. */
  datatype Event = Event(now: nat, later: nat, op: Op)

  /** What is left at a point in time. */
  function Live(t: Table, now: nat): Table {
    map k | k in t && t[k].expiresAt > now :: t[k]
  }

  predicate Owned(t: Table, key: string, session: string) {
    key in t && t[key].record.sessionId == session
  }

  function Key(op: Op): string {
    match op
    case Claim(record, _) => record.routingKey
    case Lookup(key) => key
    case Renew(key, _, _) => key
    case Release(key, _) => key
  }

  function Ideal(t: Table, e: Event): (Table, Answer) {
    var l := Live(t, e.now);
    match e.op
    case Claim(record, ttl) =>
      if record.routingKey in l && l[record.routingKey].record.sessionId != record.sessionId
      then (l, Claimed(Taken(l[record.routingKey].record)))
      else (l[record.routingKey := Entry(record, e.later + ttl)], Claimed(Acquired))
    case Lookup(key) => (l, Found(if key in l then Some(l[key].record) else None))
    case Renew(key, session, ttl) =>
      if Owned(l, key, session)
      then (l[key := Entry(l[key].record, e.later + ttl)], Renewed(true))
      else (l, Renewed(false))
    case Release(key, session) => (if Owned(l, key, session) then l - {key} else l, Released)
  }

  /** Calls are serialised, so their clock readings do not decrease. */
  ghost predicate Ordered(h: seq<Event>) {
    && (forall i | 0 <= i < |h| :: h[i].now <= h[i].later)
    && (forall i, j | 0 <= i < j < |h| :: h[i].later <= h[j].now)
  }

  function TableAfter(t: Table, h: seq<Event>): Table
    decreases |h|
  {
    if h == [] then t else Ideal(TableAfter(t, h[..|h| - 1]), h[|h| - 1]).0
  }

  function Answers(t: Table, h: seq<Event>): seq<Answer>
    decreases |h|
  {
    if h == [] then [] else Answers(t, h[..|h| - 1]) + [Ideal(TableAfter(t, h[..|h| - 1]), h[|h| - 1]).1]
  }

  // ---- exclusion -------------------------------------------------------------------------------

  /** The event gave `session` the key, or more time on it. */
  predicate Grants(t: Table, e: Event, key: string, session: string) {
    match e.op
    case Claim(record, _) =>
      record.routingKey == key && record.sessionId == session && Ideal(t, e).1 == Claimed(Acquired)
    case Renew(k, s, _) => k == key && s == session && Ideal(t, e).1 == Renewed(true)
    case _ => false
  }

  /** The deadline of the session's latest claim or renewal of the key in a history, unless it has
      released the key since. */
  function Held(h: seq<Event>, key: string, session: string): Option<nat>
    decreases |h|
  {
    if h == [] then None
    else
      var before, e := h[..|h| - 1], h[|h| - 1];
      if Grants(TableAfter(map[], before), e, key, session) then Some(e.later + e.op.ttl)
      else if e.op == Release(key, session) then None
      else Held(before, key, session)
  }

  /** The table at the end of a history is what the sessions hold: a live entry is its owner's
      latest deadline, and a deadline that has not passed is a live entry. */
  ghost predicate Agrees(h: seq<Event>, now: nat) {
    var t := TableAfter(map[], h);
    && (forall k | k in t :: t[k].record.routingKey == k)
    && (forall k | k in Live(t, now) :: Held(h, k, t[k].record.sessionId) == Some(t[k].expiresAt))
    && (forall k, s :: Held(h, k, s).Some? && Held(h, k, s).value > now ==>
          Owned(t, k, s) && t[k].expiresAt == Held(h, k, s).value)
  }

  lemma OrderedPrefix(h: seq<Event>)
    requires Ordered(h) && h != []
    ensures Ordered(h[..|h| - 1])
  {
  }

  lemma {:induction false} TableAgrees(h: seq<Event>, now: nat)
    requires Ordered(h) && (h != [] ==> h[|h| - 1].later <= now)
    ensures Agrees(h, now)
    decreases |h|
  {
    if h != [] {
      var before, e := h[..|h| - 1], h[|h| - 1];
      OrderedPrefix(h);
      TableAgrees(before, e.now);
      StepAgrees(before, e, now);
      assert before + [e] == h;
    }
  }

  /** What one call does to the entry of one key. */
  lemma EntryMoves(t: Table, e: Event, k: string, now: nat)
    requires forall j | j in t :: t[j].record.routingKey == j
    requires e.now <= e.later <= now
    ensures
      var t' := Ideal(t, e).0;
      && (k in t' ==> t'[k].record.routingKey == k)
      && (k in Live(t', now) ==>
            var s := t'[k].record.sessionId;
            if Grants(t, e, k, s) then t'[k].expiresAt == e.later + e.op.ttl
            else k in Live(t, e.now) && t'[k] == t[k] && e.op != Release(k, s))
  {
  }

  lemma EntryStays(t: Table, e: Event, k: string, s: string)
    requires forall j | j in t :: t[j].record.routingKey == j
    ensures
      var t' := Ideal(t, e).0;
      && (Grants(t, e, k, s) ==> Owned(t', k, s) && t'[k].expiresAt == e.later + e.op.ttl)
      && (k in Live(t, e.now) && t[k].record.sessionId == s && !Grants(t, e, k, s) && e.op != Release(k, s) ==>
            k in t' && t'[k] == t[k])
  {
  }

  lemma StepAgrees(before: seq<Event>, e: Event, now: nat)
    requires Agrees(before, e.now) && e.now <= e.later <= now
    ensures Agrees(before + [e], now)
  {
    var h := before + [e];
    var t := TableAfter(map[], before);
    var t' := TableAfter(map[], h);
    assert t' == Ideal(t, e).0 by {
      assert h[..|h| - 1] == before && h[|h| - 1] == e;
    }
    forall k | k in t'
      ensures t'[k].record.routingKey == k
      ensures k in Live(t', now) ==> Held(h, k, t'[k].record.sessionId) == Some(t'[k].expiresAt)
    {
      EntryMoves(t, e, k, now);
      StepHeld(before, e, k, t'[k].record.sessionId);
    }
    forall k, s | Held(h, k, s).Some? && Held(h, k, s).value > now
      ensures Owned(t', k, s) && t'[k].expiresAt == Held(h, k, s).value
    {
      StepHeld(before, e, k, s);
      EntryStays(t, e, k, s);
    }
  }

  lemma StepHeld(before: seq<Event>, e: Event, key: string, session: string)
    ensures Held(before + [e], key, session) ==
      if Grants(TableAfter(map[], before), e, key, session) then Some(e.later + e.op.ttl)
      else if e.op == Release(key, session) then None
      else Held(before, key, session)
  {
    var h := before + [e];
    assert h[..|h| - 1] == before && h[|h| - 1] == e;
  }

  /** Exclusion over whole histories: when a session acquires a key, whatever any other session was
      last granted has expired or was released by it. */
  lemma AcquiringExcludes(before: seq<Event>, e: Event, other: string)
    requires Ordered(before + [e]) && e.op.Claim?
    requires Ideal(TableAfter(map[], before), e).1 == Claimed(Acquired)
    requires other != e.op.record.sessionId
    ensures Held(before, e.op.record.routingKey, other).Some? ==> Held(before, e.op.record.routingKey, other).value <= e.now
  {
    OrderedPrefix(before + [e]);
    assert (before + [e])[..|before|] == before;
    if before != [] {
      assert (before + [e])[|before| - 1].later <= (before + [e])[|before|].now;
    }
    TableAgrees(before, e.now);
  }

  /** And so no two sessions ever hold the same key at the same time. */
  lemma OneHolder(h: seq<Event>, key: string, s1: string, s2: string, now: nat)
    requires Ordered(h) && (h != [] ==> h[|h| - 1].later <= now)
    requires Held(h, key, s1).Some? && Held(h, key, s1).value > now
    requires Held(h, key, s2).Some? && Held(h, key, s2).value > now
    ensures s1 == s2
  {
    TableAgrees(h, now);
  }

  /** A refused claim names the session that holds the key at that moment. */
  lemma RefusalNamesHolder(before: seq<Event>, e: Event)
    requires Ordered(before + [e]) && e.op.Claim?
    ensures
      var a := Ideal(TableAfter(map[], before), e).1;
      a != Claimed(Acquired) ==>
        && a.Claimed? && a.claim.Taken?
        && a.claim.owner.routingKey == e.op.record.routingKey
        && a.claim.owner.sessionId != e.op.record.sessionId
        && Held(before, e.op.record.routingKey, a.claim.owner.sessionId).Some?
        && Held(before, e.op.record.routingKey, a.claim.owner.sessionId).value > e.now
  {
    OrderedPrefix(before + [e]);
    assert (before + [e])[..|before|] == before;
    if before != [] {
      assert (before + [e])[|before| - 1].later <= (before + [e])[|before|].now;
    }
    TableAgrees(before, e.now);
  }

  /** A reconnecting agent has a new session id, so it cannot take its key over: whatever the two
      sessions are, the second is refused up to the deadline of the first one's claim, and acquires
      the key from the deadline on. */
  lemma ReconnectWaits(first: RouteRecord, second: RouteRecord, ttl: nat, ttl': nat, claimed: nat, now: nat)
    requires first.routingKey == second.routingKey && first.sessionId != second.sessionId && claimed <= now
    ensures
      var h := [Event(claimed, claimed, Op.Claim(first, ttl))];
      Ideal(TableAfter(map[], h), Event(now, now, Op.Claim(second, ttl'))).1 ==
        Claimed(if now < claimed + ttl then Taken(first) else Acquired)
  {
    var e := Event(claimed, claimed, Op.Claim(first, ttl));
    assert [e][..0] == [];
    assert TableAfter(map[], [e]) == map[first.routingKey := Entry(first, claimed + ttl)];
  }

  /** At two ids and one key: claimed for 30 at time 0, refused at 29, acquired at 30. */
  lemma ReconnectIsRefused()
    ensures
      var first := RouteRecord("api.tunnel.com", "node", "addr", "sess_1", "tun_1", "acct");
      var second := first.(sessionId := "sess_2", tunnelId := "tun_2");
      var t := TableAfter(map[], [Event(0, 0, Op.Claim(first, 30))]);
      && Ideal(t, Event(29, 29, Op.Claim(second, 30))).1 == Claimed(Taken(first))
      && Ideal(t, Event(30, 30, Op.Claim(second, 30))).1 == Claimed(Acquired)
  {
    var first := RouteRecord("api.tunnel.com", "node", "addr", "sess_1", "tun_1", "acct");
    var second := first.(sessionId := "sess_2", tunnelId := "tun_2");
    assert "sess_1"[5] != "sess_2"[5];
    ReconnectWaits(first, second, 30, 30, 0, 29);
    ReconnectWaits(first, second, 30, 30, 0, 30);
  }

  // ---- continuity and reaping ------------------------------------------------------------------------

  /** A history can also be read from its front. */
  lemma {:induction false} FromFront(t: Table, h: seq<Event>)
    requires h != []
    ensures TableAfter(t, h) == TableAfter(Ideal(t, h[0]).0, h[1..])
    decreases |h|
  {
    if |h| == 1 {
      assert h[..0] == [];
    } else {
      FromFront(t, h[..|h| - 1]);
      assert h[1..][..|h| - 2] == h[..|h| - 1][1..];
    }
  }

  /** The session asks for the key again, by renewing it or claiming it anew. */
  predicate Refreshes(e: Event, key: string, session: string) {
    match e.op
    case Claim(record, _) => record.routingKey == key && record.sessionId == session
    case Renew(k, s, _) => k == key && s == session
    case _ => false
  }

  /** The deadline if every refresh succeeds. */
  function Deadline(h: seq<Event>, key: string, session: string, d: nat): nat
    decreases |h|
  {
    if h == [] then d
    else Deadline(h[1..], key, session, if Refreshes(h[0], key, session) then h[0].later + h[0].op.ttl else d)
  }

  /** Every refresh comes before the deadline that the one before it set, and the session does not
      release the key. */
  ghost predicate Timely(h: seq<Event>, key: string, session: string, d: nat)
    decreases |h|
  {
    h == [] || (
      && h[0].op != Release(key, session)
      && (Refreshes(h[0], key, session) ==> h[0].now < d)
      && Timely(h[1..], key, session, if Refreshes(h[0], key, session) then h[0].later + h[0].op.ttl else d))
  }

  ghost predicate HasUntil(t: Table, key: string, session: string, d: nat) {
    Owned(t, key, session) && t[key].expiresAt == d
  }

  lemma OrderedTail(h: seq<Event>)
    requires Ordered(h) && h != []
    ensures Ordered(h[1..])
  {
    forall i, j | 0 <= i < j < |h| - 1
      ensures h[1..][i].later <= h[1..][j].now
    {
      assert h[i + 1].later <= h[j + 1].now;
    }
  }

  /** With timely refreshes no event can come after the deadline that is then in force. */
  lemma {:induction false} BeforeDeadline(h: seq<Event>, key: string, session: string, d: nat)
    requires Ordered(h) && h != [] && Timely(h, key, session, d)
    requires h[|h| - 1].now < Deadline(h, key, session, d)
    ensures Refreshes(h[0], key, session) || h[0].now < d
    decreases |h|
  {
    if !Refreshes(h[0], key, session) && |h| > 1 {
      OrderedTail(h);
      BeforeDeadline(h[1..], key, session, d);
      assert h[0].later <= h[1].now;
    }
  }

  lemma RefreshExtends(t: Table, e: Event, key: string, session: string, d: nat)
    requires HasUntil(t, key, session, d) && e.now < d && e.op != Release(key, session)
    ensures HasUntil(Ideal(t, e).0, key, session, if Refreshes(e, key, session) then e.later + e.op.ttl else d)
  {
    assert key in Live(t, e.now);
  }

  /** A session that refreshes in time and does not release keeps the key through any history:
      it holds the key to the deadline of its last refresh. */
  lemma {:induction false} TimelySessionKeepsKey(t: Table, h: seq<Event>, key: string, session: string, d: nat)
    requires HasUntil(t, key, session, d) && Ordered(h) && Timely(h, key, session, d)
    requires h != [] ==> h[|h| - 1].now < Deadline(h, key, session, d)
    ensures HasUntil(TableAfter(t, h), key, session, Deadline(h, key, session, d))
    decreases |h|
  {
    if h != [] {
      BeforeDeadline(h, key, session, d);
      OrderedTail(h);
      RefreshExtends(t, h[0], key, session, d);
      FromFront(t, h);
      var d' := if Refreshes(h[0], key, session) then h[0].later + h[0].op.ttl else d;
      TimelySessionKeepsKey(Ideal(t, h[0]).0, h[1..], key, session, d');
    }
  }

  /** While it holds the key, others are told so, lookups lead to it, and its renewals succeed. */
  lemma HolderIsSeen(t: Table, e: Event, key: string, session: string, d: nat)
    requires HasUntil(t, key, session, d) && e.now < d && Key(e.op) == key
    ensures
      match e.op
      case Claim(record, _) =>
        Ideal(t, e).1 == Claimed(if record.sessionId == session then Acquired else Taken(t[key].record))
      case Lookup(_) => Ideal(t, e).1 == Found(Some(t[key].record))
      case Renew(_, s, _) => Ideal(t, e).1 == Renewed(s == session)
      case Release(_, s) => s != session ==> HasUntil(Ideal(t, e).0, key, session, d)
  {
    assert key in Live(t, e.now);
  }

  /** The holder gets whatever time it asks for. */
  lemma HolderIsGranted(t: Table, e: Event, key: string, session: string, d: nat)
    requires HasUntil(t, key, session, d) && e.now < d
    ensures Grants(t, e, key, session) <==> Refreshes(e, key, session)
  {
    assert key in Live(t, e.now);
  }

  /** Nobody is granted the key: no claim of it is acquired and no renewal of it succeeds. */
  ghost predicate Ungranted(t: Table, h: seq<Event>, key: string)
    decreases |h|
  {
    h == [] || ((forall s :: !Grants(t, h[0], key, s)) && Ungranted(Ideal(t, h[0]).0, h[1..], key))
  }

  /** From its deadline on a key that nobody has been granted since is free, whatever else is called:
      refused claims, refused renewals, releases and calls for other keys. */
  lemma {:induction false} AbandonedKeyExpires(t: Table, h: seq<Event>, key: string, d: nat, now: nat)
    requires key in t ==> t[key].expiresAt <= d
    requires Ungranted(t, h, key) && d <= now
    ensures key !in Live(TableAfter(t, h), now)
    ensures forall e: Event | e.now == now && Key(e.op) == key ::
      match e.op
      case Lookup(_) => Ideal(TableAfter(t, h), e).1 == Found(None)
      case Renew(_, _, _) => Ideal(TableAfter(t, h), e).1 == Renewed(false)
      case Claim(_, _) => Ideal(TableAfter(t, h), e).1 == Claimed(Acquired)
      case Release(_, _) => true
    decreases |h|
  {
    if h != [] {
      FromFront(t, h);
      UngrantedStays(t, h[0], key);
      AbandonedKeyExpires(Ideal(t, h[0]).0, h[1..], key, d, now);
    }
  }

  lemma UngrantedStays(t: Table, e: Event, key: string)
    requires forall s :: !Grants(t, e, key, s)
    ensures key in Ideal(t, e).0 ==> key in t && Ideal(t, e).0[key] == t[key]
  {
    match e.op
    case Claim(record, _) => assert !Grants(t, e, key, record.sessionId);
    case Renew(_, s, _) => assert !Grants(t, e, key, s);
    case _ =>
  }

  /** The owner neither refreshes the key before its deadline nor releases it, and others only claim it
      before then. */
  ghost predicate LeftAlone(h: seq<Event>, key: string, owner: string, d: nat) {
    forall i | 0 <= i < |h| && Key(h[i].op) == key ::
      match h[i].op
      case Claim(record, _) => record.sessionId != owner && h[i].now < d
      case Renew(_, s, _) => s == owner ==> d <= h[i].now
      case Release(_, s) => s != owner
      case Lookup(_) => true
  }

  lemma LeftAloneStep(t: Table, e: Event, key: string, owner: string, d: nat)
    requires LeftAlone([e], key, owner, d)
    requires HasUntil(t, key, owner, d) || (d <= e.now && (key in t ==> t[key].expiresAt <= d))
    ensures forall s :: !Grants(t, e, key, s)
    ensures e.now < d ==> HasUntil(Ideal(t, e).0, key, owner, d)
    ensures key in Ideal(t, e).0 ==> Ideal(t, e).0[key].expiresAt <= d
  {
    assert [e][0] == e;
    if e.now < d {
      assert key in Live(t, e.now);
    } else {
      assert key !in Live(t, e.now);
    }
  }

  /** So strangers' claims and renewals never keep a key from running out. */
  lemma {:induction false} StrangersAreRefused(t: Table, h: seq<Event>, key: string, owner: string, d: nat)
    requires Ordered(h) && LeftAlone(h, key, owner, d)
    requires HasUntil(t, key, owner, d) || ((h != [] ==> d <= h[0].now) && (key in t ==> t[key].expiresAt <= d))
    ensures Ungranted(t, h, key)
    decreases |h|
  {
    if h != [] {
      assert LeftAlone([h[0]], key, owner, d);
      LeftAloneStep(t, h[0], key, owner, d);
      OrderedTail(h);
      forall i | 0 <= i < |h| - 1 && Key(h[1..][i].op) == key
        ensures match h[1..][i].op
                case Claim(record, _) => record.sessionId != owner && h[1..][i].now < d
                case Renew(_, s, _) => s == owner ==> d <= h[1..][i].now
                case Release(_, s) => s != owner
                case Lookup(_) => true
      {
        assert h[1..][i] == h[i + 1];
      }
      if |h| > 1 {
        assert h[0].later <= h[1].now;
      }
      StrangersAreRefused(Ideal(t, h[0]).0, h[1..], key, owner, d);
    }
  }
}
