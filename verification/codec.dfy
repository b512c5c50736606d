/** The record the routing table stores and its tab-separated form. */
module Codec {
  import opened Wrappers
  import opened Text

  datatype RouteRecord = RouteRecord(
    routingKey: string,
    nodeId: string,
    nodeAddr: string,
    sessionId: string,
    tunnelId: string,
    accountId: string
  )

  predicate TabFree(r: RouteRecord) {
    && '\t' !in r.routingKey && '\t' !in r.nodeId && '\t' !in r.nodeAddr
    && '\t' !in r.sessionId && '\t' !in r.tunnelId && '\t' !in r.accountId
  }

  function Encode(r: RouteRecord): string {
    r.routingKey + "\t" + r.nodeId + "\t" + r.nodeAddr + "\t" + r.sessionId + "\t" + r.tunnelId + "\t" + r.accountId
  }

  // ---- splitting ---------------------------------------------------------------------------

  /** `str::split`: always at least one part. */
  function Split(s: string, c: char): (parts: seq<string>)
    ensures parts != []
    decreases |s|
  {
    var n := Until(s, c);
    if n == |s| then [s] else [s[..n]] + Split(s[n + 1..], c)
  }

  function Join(parts: seq<string>, c: char): string
    requires parts != []
  {
    if |parts| == 1 then parts[0] else parts[0] + [c] + Join(parts[1..], c)
  }

  function Occurrences(s: string, c: char): nat {
    if s == [] then 0 else (if s[0] == c then 1 else 0) + Occurrences(s[1..], c)
  }

  lemma {:induction false} OccurrencesAfter(s: string, c: char)
    ensures Until(s, c) == |s| <==> Occurrences(s, c) == 0
    ensures Until(s, c) < |s| ==> Occurrences(s, c) == 1 + Occurrences(s[Until(s, c) + 1..], c)
  {
    if s != [] && s[0] != c {
      OccurrencesAfter(s[1..], c);
      var n := Until(s[1..], c);
      if n < |s| - 1 {
        assert s[1..][n + 1..] == s[n + 2..];
      }
    }
  }

  lemma {:induction false} SplitCounts(s: string, c: char)
    ensures |Split(s, c)| == Occurrences(s, c) + 1
    decreases |s|
  {
    OccurrencesAfter(s, c);
    var n := Until(s, c);
    if n < |s| {
      SplitCounts(s[n + 1..], c);
    }
  }

  lemma {:induction false} JoinSplit(s: string, c: char)
    ensures Join(Split(s, c), c) == s
    decreases |s|
  {
    var n := Until(s, c);
    if n < |s| {
      JoinSplit(s[n + 1..], c);
      var rest := Split(s[n + 1..], c);
      assert ([s[..n]] + rest)[1..] == rest;
      assert s == s[..n] + [c] + s[n + 1..];
    }
  }

  lemma {:induction false} SplitJoin(parts: seq<string>, c: char)
    requires parts != [] && forall k | 0 <= k < |parts| :: c !in parts[k]
    ensures Split(Join(parts, c), c) == parts
    decreases |parts|
  {
    if |parts| == 1 {
      UntilNone(parts[0], c);
    } else {
      var rest := Join(parts[1..], c);
      SplitJoin(parts[1..], c);
      UntilFirst(parts[0], c, rest);
      var s := parts[0] + [c] + rest;
      assert s[..|parts[0]|] == parts[0] && s[|parts[0]| + 1..] == rest;
      assert parts == [parts[0]] + parts[1..];
    }
  }

  lemma {:induction false} SplitPartsFree(s: string, c: char)
    ensures forall k | 0 <= k < |Split(s, c)| :: c !in Split(s, c)[k]
    decreases |s|
  {
    var n := Until(s, c);
    if n < |s| {
      SplitPartsFree(s[n + 1..], c);
    } else {
      assert s[..n] == s;
    }
  }

  // ---- the codec -----------------------------------------------------------------------------

  function Fields(r: RouteRecord): seq<string> {
    [r.routingKey, r.nodeId, r.nodeAddr, r.sessionId, r.tunnelId, r.accountId]
  }

  /** The index of the first missing field is the error; parts after the sixth are ignored. */
  function Decode(raw: string): Result<RouteRecord, nat> {
    var parts := Split(raw, '\t');
    if |parts| < 6 then Failure(|parts|)
    else Success(RouteRecord(parts[0], parts[1], parts[2], parts[3], parts[4], parts[5]))
  }

  lemma EncodeJoins(r: RouteRecord)
    ensures Encode(r) == Join(Fields(r), '\t')
  {
    var f := Fields(r);
    assert f[1..] == [r.nodeId, r.nodeAddr, r.sessionId, r.tunnelId, r.accountId];
    assert f[1..][1..] == [r.nodeAddr, r.sessionId, r.tunnelId, r.accountId];
    assert f[1..][1..][1..] == [r.sessionId, r.tunnelId, r.accountId];
    assert f[1..][1..][1..][1..] == [r.tunnelId, r.accountId];
    assert f[1..][1..][1..][1..][1..] == [r.accountId];
    var j5 := Join(f[1..][1..][1..][1..][1..], '\t');
    assert j5 == r.accountId;
    var j4 := Join(f[1..][1..][1..][1..], '\t');
    assert j4 == r.tunnelId + ['\t'] + j5;
    var j3 := Join(f[1..][1..][1..], '\t');
    assert j3 == r.sessionId + ['\t'] + j4;
    var j2 := Join(f[1..][1..], '\t');
    assert j2 == r.nodeAddr + ['\t'] + j3;
    var j1 := Join(f[1..], '\t');
    assert j1 == r.nodeId + ['\t'] + j2;
    assert Join(f, '\t') == r.routingKey + ['\t'] + j1;
  }

  lemma {:induction false} OccurrencesSplit(a: string, b: string, c: char)
    ensures Occurrences(a + b, c) == Occurrences(a, c) + Occurrences(b, c)
  {
    if a == [] {
      assert a + b == b;
    } else {
      assert (a + b)[1..] == a[1..] + b;
      OccurrencesSplit(a[1..], b, c);
    }
  }

  lemma {:induction false} OccurrencesIn(s: string, c: char)
    ensures Occurrences(s, c) == 0 <==> c !in s
  {
    if s != [] {
      OccurrencesIn(s[1..], c);
    }
  }

  lemma {:induction false} JoinOccurrences(parts: seq<string>, c: char)
    requires parts != []
    ensures Occurrences(Join(parts, c), c) >= |parts| - 1
    ensures Occurrences(Join(parts, c), c) == |parts| - 1 ==> forall k | 0 <= k < |parts| :: c !in parts[k]
    decreases |parts|
  {
    OccurrencesIn(parts[0], c);
    if |parts| > 1 {
      JoinOccurrences(parts[1..], c);
      var rest := Join(parts[1..], c);
      OccurrencesSplit(parts[0] + [c], rest, c);
      OccurrencesSplit(parts[0], [c], c);
    }
  }

  /** Decoding inverts encoding exactly for the records without a tab in any field. */
  lemma RoundTrip(r: RouteRecord)
    ensures Decode(Encode(r)) == Success(r) <==> TabFree(r)
  {
    EncodeJoins(r);
    var f := Fields(r);
    if TabFree(r) {
      SplitJoin(f, '\t');
    }
    if Decode(Encode(r)) == Success(r) {
      SplitPartsFree(Encode(r), '\t');
      var parts := Split(Encode(r), '\t');
      assert r.routingKey == parts[0] && r.nodeId == parts[1] && r.nodeAddr == parts[2];
      assert r.sessionId == parts[3] && r.tunnelId == parts[4] && r.accountId == parts[5];
    }
  }

  /** Decoding fails exactly below five tabs, and encoding inverts it exactly at five. */
  lemma DecodeThenEncode(s: string)
    ensures Decode(s).Success? <==> Occurrences(s, '\t') >= 5
    ensures Decode(s).Success? ==> (Encode(Decode(s).value) == s <==> Occurrences(s, '\t') == 5)
  {
    SplitCounts(s, '\t');
    JoinSplit(s, '\t');
    if Decode(s).Success? {
      var r := Decode(s).value;
      EncodeJoins(r);
      if Occurrences(s, '\t') == 5 {
        assert Fields(r) == Split(s, '\t');
      }
      if Encode(r) == s {
        SplitPartsFree(s, '\t');
        SplitJoin(Fields(r), '\t');
        assert |Split(s, '\t')| == 6;
      }
    }
  }

  lemma EncodeNonempty(r: RouteRecord)
    ensures Encode(r) != ""
  {
    EncodeJoins(r);
    JoinOccurrences(Fields(r), '\t');
  }

  // ---- the owner field, as the scripts read it ---------------------------------------------------

  /** The pattern `^([^\t]*\t){skip}([^\t]*)` matches `s` and its last group captures `owner`: so
      many tab-free runs, each with its tab, and then a tab-free run that cannot be extended. */
  ghost predicate Captures(s: string, skip: nat, owner: string)
    decreases skip
  {
    if skip == 0 then
      exists rest: string :: s == owner + rest && '\t' !in owner && (rest == "" || rest[0] == '\t')
    else
      exists run: string, tail: string :: s == run + "\t" + tail && '\t' !in run && Captures(tail, skip - 1, owner)
  }

  /** Evaluating it: drop `skip` runs with their tabs, nil when there are too few. */
  function Capture(s: string, skip: nat): Option<string> {
    var n := Until(s, '\t');
    if skip == 0 then Some(s[..n])
    else if n == |s| then None
    else Capture(s[n + 1..], skip - 1)
  }

  /** `string.match(current, '^[^\t]*\t[^\t]*\t[^\t]*\t([^\t]*)')`. */
  function LuaOwner(s: string): Option<string> {
    Capture(s, 3)
  }

  lemma RunMatch(s: string, owner: string)
    ensures Captures(s, 0, owner) <==> Capture(s, 0) == Some(owner)
  {
    var n := Until(s, '\t');
    assert s == s[..n] + s[n..];
    if Captures(s, 0, owner) {
      var rest: string :| s == owner + rest && '\t' !in owner && (rest == "" || rest[0] == '\t');
      if rest == "" {
        assert s == owner;
        UntilNone(owner, '\t');
      } else {
        assert s[|owner|] == '\t';
        FirstIsFirst(s, '\t', |owner|);
      }
      assert s[..|owner|] == owner;
    }
  }

  lemma SkipMatch(s: string, run: string, tail: string)
    requires s == run + "\t" + tail && '\t' !in run
    ensures Until(s, '\t') == |run| < |s| && s[|run| + 1..] == tail
  {
    assert s[|run|] == '\t';
    FirstIsFirst(s, '\t', |run|);
  }

  /** Evaluation agrees with the meaning of the pattern, whose match is therefore unique. */
  lemma {:induction false} CaptureMeansMatch(s: string, skip: nat, owner: string)
    ensures Captures(s, skip, owner) <==> Capture(s, skip) == Some(owner)
    decreases skip
  {
    var n := Until(s, '\t');
    if skip == 0 {
      RunMatch(s, owner);
    } else {
      if n < |s| {
        assert s == s[..n] + "\t" + s[n + 1..];
        CaptureMeansMatch(s[n + 1..], skip - 1, owner);
      }
      if Captures(s, skip, owner) {
        var run: string, tail: string :| s == run + "\t" + tail && '\t' !in run && Captures(tail, skip - 1, owner);
        SkipMatch(s, run, tail);
      }
    }
  }

  lemma {:induction false} CaptureIsField(s: string, skip: nat)
    ensures Capture(s, skip) == if skip < |Split(s, '\t')| then Some(Split(s, '\t')[skip]) else None
    decreases skip
  {
    var n := Until(s, '\t');
    if n == |s| {
      assert s[..n] == s;
    } else if skip > 0 {
      CaptureIsField(s[n + 1..], skip - 1);
    }
  }

  /** The scripts read the fourth field of what is stored, and nil below three tabs. */
  lemma OwnerIsFourthField(s: string)
    ensures |Split(s, '\t')| == Occurrences(s, '\t') + 1
    ensures LuaOwner(s) == if Occurrences(s, '\t') >= 3 then Some(Split(s, '\t')[3]) else None
    ensures forall owner :: Captures(s, 3, owner) <==> LuaOwner(s) == Some(owner)
  {
    CaptureIsField(s, 3);
    SplitCounts(s, '\t');
    forall owner
      ensures Captures(s, 3, owner) <==> LuaOwner(s) == Some(owner)
    {
      CaptureMeansMatch(s, 3, owner);
    }
  }

  /** For a stored record that is the session id. */
  lemma OwnerOfRecord(r: RouteRecord)
    requires TabFree(r)
    ensures LuaOwner(Encode(r)) == Some(r.sessionId)
  {
    EncodeJoins(r);
    SplitJoin(Fields(r), '\t');
    CaptureIsField(Encode(r), 3);
  }

  // ---- records with tabs ----------------------------------------------------------------------------

  lemma {:induction false} JoinConcat(a: seq<string>, b: seq<string>, c: char)
    requires a != [] && b != []
    ensures Join(a + b, c) == Join(a, c) + [c] + Join(b, c)
    decreases |a|
  {
    if |a| == 1 {
      assert (a + b)[1..] == b;
    } else {
      JoinConcat(a[1..], b, c);
      assert (a + b)[1..] == a[1..] + b;
    }
  }

  /** The record's other fields hold no tab. */
  predicate TabFreeBesidesKey(r: RouteRecord) {
    TabFree(r.(routingKey := ""))
  }

  lemma SplitTabbed(r: RouteRecord)
    requires TabFreeBesidesKey(r)
    ensures Split(Encode(r), '\t') == Split(r.routingKey, '\t') + Fields(r)[1..]
  {
    var parts, rest := Split(r.routingKey, '\t'), Fields(r)[1..];
    EncodeJoins(r);
    JoinSplit(r.routingKey, '\t');
    JoinConcat([r.routingKey], rest, '\t');
    assert [r.routingKey] + rest == Fields(r);
    JoinConcat(parts, rest, '\t');
    SplitPartsFree(r.routingKey, '\t');
    SplitJoin(parts + rest, '\t');
  }

  function Part(parts: seq<string>, n: nat): string {
    if n < |parts| then parts[n] else ""
  }

  /** Where the scripts look for the owner when the key holds tabs: it takes the place of the
      session id only without one; with one or two they read the node, with more the key itself. */
  lemma OwnerOfTabbedKey(r: RouteRecord)
    requires TabFreeBesidesKey(r)
    ensures
      var tabs := Occurrences(r.routingKey, '\t');
      LuaOwner(Encode(r)) == Some(
        if tabs == 0 then r.sessionId
        else if tabs == 1 then r.nodeAddr
        else if tabs == 2 then r.nodeId
        else Part(Split(r.routingKey, '\t'), 3))
  {
    SplitTabbed(r);
    SplitCounts(r.routingKey, '\t');
    CaptureIsField(Encode(r), 3);
  }
}
