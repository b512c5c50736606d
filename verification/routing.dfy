/** Routing keys: registration and ingress must compute byte-identical strings. */
module Routing {
  import opened Wrappers
  import opened Text

  const MAX_HOST: nat := 253
  const MAX_LABEL: nat := 63

  datatype HostError = EmptyHost | UnterminatedIpv6 | InvalidPort | NonAscii | HostTooLong | BadLabel(reason: LabelError)

  datatype LabelError = EmptyLabel | LabelTooLong | BadCharacter | EdgeHyphen | PunycodePrefix

  /** Drops the port, or what follows an IPv6 literal. */
  function WithoutPort(trimmed: string): Result<string, HostError>
    requires trimmed != ""
  {
    if trimmed[0] == '[' then
      var n := Until(trimmed, ']');
      if n == |trimmed| then Failure(UnterminatedIpv6) else Success(trimmed[..n + 1])
    else
      var n := Until(trimmed, ':');
      if n == |trimmed| then Success(trimmed)
      else if !AllDigits(trimmed[n + 1..]) then Failure(InvalidPort)
      else Success(trimmed[..n])
  }

  function NormalizeHost(raw: string): Result<string, HostError> {
    var trimmed := Trim(raw);
    if trimmed == "" then Failure(EmptyHost)
    else match WithoutPort(trimmed)
      case Failure(e) => Failure(e)
      case Success(host) =>
        var rootless := TrimDots(host);
        if rootless == "" then Failure(EmptyHost)
        else
          var lowered := Lower(rootless);
          if !Ascii(lowered) then Failure(NonAscii)
          else if |lowered| > MAX_HOST then Failure(HostTooLong)
          else Success(lowered)
  }

  // ---- what a key looks like ---------------------------------------------------------------------

  predicate Bracketed(k: string) {
    k != "" && k[0] == '['
  }

  /** The shape of the keys that canonicalisation produces. */
  predicate Canonical(k: string) {
    && k != "" && |k| <= 253 && KeyLetters(k)
    && !IsWhitespace(k[0]) && k[|k| - 1] != '.'
    && (if Bracketed(k) then Until(k, ']') == |k| - 1 else ':' !in k)
  }

  /** ASCII without 'A' to 'Z'. */
  predicate KeyLetters(k: string) {
    forall i | 0 <= i < |k| :: k[i] as int < 128 && !(65 <= k[i] as int <= 90)
  }

  lemma KeyText(k: string)
    ensures KeyLetters(k) <==> Ascii(k) && Lower(k) == k
  {
    LowerFixed(k);
    if Ascii(k) && NoUpper(k) {
      assert KeyLetters(k);
    }
    if KeyLetters(k) {
      assert Ascii(k) && NoUpper(k);
    }
  }

  /** A spelling of `k`: a case variant, any number of dots, and optionally a colon and digits;
      after a bracketed literal, anything at all. */
  predicate Spells(t: string, k: string) {
    && |k| <= |t| && LowersTo(t[..|k|], k)
    && (Bracketed(k) || exists d | |k| <= d <= |t| :: DotsThenPort(t, |k|, d))
  }

  predicate DotsThenPort(t: string, n: nat, d: nat)
    requires n <= d <= |t|
  {
    && (forall i | n <= i < d :: t[i] == '.')
    && (d == |t| || (t[d] == ':' && forall i | d < i < |t| :: 48 <= t[i] as int <= 57))
  }

  lemma LowerKeeps(s: string, c: char)
    requires !('A' <= c <= 'Z') && !('a' <= c <= 'z')
    ensures c in Lower(s) <==> c in s
    ensures Until(Lower(s), c) == Until(s, c)
  {
    var n := Until(s, c);
    assert forall i | 0 <= i < |s| :: Lower(s)[i] == c <==> s[i] == c;
    if n < |s| {
      assert forall j | 0 <= j < n :: s[j] != c by {
        assert c !in s[..n];
        assert forall j | 0 <= j < n :: s[..n][j] == s[j];
      }
      FirstIsFirst(Lower(s), c, n);
    } else {
      assert s[..n] == s;
      UntilNone(Lower(s), c);
    }
  }

  lemma BracketedShape(t: string, rootless: string)
    requires t != "" && t[0] == '[' && !IsWhitespace(t[0]) && WithoutPort(t).Success?
    requires rootless == TrimDots(WithoutPort(t).value)
    requires Ascii(Lower(rootless)) && |rootless| <= MAX_HOST
    ensures Canonical(Lower(rootless)) && Spells(t, Lower(rootless))
  {
    var n := Until(t, ']');
    var host := WithoutPort(t).value;
    assert host[|host| - 1] == ']';
    assert rootless == host;
    LowerKeeps(host, ']');
    LowerTwice(host);
    FirstBracket(t, n);
  }

  lemma PlainShape(t: string, rootless: string)
    requires t != "" && t[0] != '[' && !IsWhitespace(t[0]) && WithoutPort(t).Success?
    requires rootless == TrimDots(WithoutPort(t).value) != ""
    requires Ascii(Lower(rootless)) && |rootless| <= MAX_HOST
    ensures Canonical(Lower(rootless)) && Spells(t, Lower(rootless))
  {
    var n := Until(t, ':');
    assert t[..|t|] == t;
    assert WithoutPort(t).value == t[..n];
    assert rootless == t[..n][..|rootless|] == t[..|rootless|];
    assert ':' !in rootless by {
      assert ':' !in t[..n];
      assert forall c | c in rootless :: c in t[..n];
    }
    LowerKeeps(rootless, ':');
    LowerTwice(rootless);
    assert DotsThenPort(t, |rootless|, n) by {
      assert forall i | |rootless| <= i < n :: t[..n][i] == t[i];
    }
    LowerFirst(rootless);
  }

  lemma LowerFirst(s: string)
    requires s != ""
    ensures IsWhitespace(Lower(s)[0]) == IsWhitespace(s[0])
    ensures (Lower(s)[0] == '[') == (s[0] == '[')
    ensures (Lower(s)[|s| - 1] == '.') == (s[|s| - 1] == '.')
  {
  }

  /** Every key that comes out of canonicalisation is canonical, and its input spells it. */
  lemma NormalizedIsCanonical(raw: string)
    requires NormalizeHost(raw).Success?
    ensures Canonical(NormalizeHost(raw).value)
    ensures Spells(Trim(raw), NormalizeHost(raw).value)
  {
    var t := Trim(raw);
    var rootless := TrimDots(WithoutPort(t).value);
    if t[0] == '[' {
      BracketedShape(t, rootless);
    } else {
      PlainShape(t, rootless);
    }
  }

  lemma FirstBracket(t: string, n: nat)
    requires n < |t| && n == Until(t, ']')
    ensures Until(t[..n + 1], ']') == n
  {
    assert forall j | 0 <= j < n :: t[j] != ']' by {
      assert ']' !in t[..n];
      assert forall j | 0 <= j < n :: t[..n][j] == t[j];
    }
    FirstIsFirst(t[..n + 1], ']', n);
  }

  /** Every spelling of a canonical key is normalised to it. */
  lemma SpellingNormalizes(raw: string, k: string)
    requires Canonical(k) && Spells(Trim(raw), k)
    ensures NormalizeHost(raw) == Success(k)
  {
    var t := Trim(raw);
    if Bracketed(k) {
      BracketedHost(t, k);
      HostNormalizes(raw, k, |k|);
    } else {
      var d :| |k| <= d <= |t| && DotsThenPort(t, |k|, d);
      PlainHost(t, k, d);
      HostNormalizes(raw, k, d);
    }
  }

  lemma RootlessIs(t: string, k: string, d: nat)
    requires k != "" && k[|k| - 1] != '.' && |k| <= d <= |t| && Lower(t[..|k|]) == k
    requires forall i | |k| <= i < d :: t[i] == '.'
    ensures TrimDots(t[..d]) == t[..|k|]
  {
    LastStays(t[..|k|]);
    TrimDotsUnique(t[..d], |k|);
    assert t[..d][..|k|] == t[..|k|];
  }

  lemma RootlessNormalizes(raw: string, rootless: string)
    requires Trim(raw) != "" && WithoutPort(Trim(raw)).Success? && rootless == TrimDots(WithoutPort(Trim(raw)).value)
    requires Canonical(Lower(rootless))
    ensures NormalizeHost(raw) == Success(Lower(rootless))
  {
    KeyText(Lower(rootless));
  }

  /** What is left once the port is gone: a case variant of the key, and dots. */
  lemma HostNormalizes(raw: string, k: string, d: nat)
    requires Canonical(k) && |k| <= d <= |Trim(raw)| && Lower(Trim(raw)[..|k|]) == k
    requires WithoutPort(Trim(raw)) == Success(Trim(raw)[..d])
    requires forall i | |k| <= i < d :: Trim(raw)[i] == '.'
    ensures NormalizeHost(raw) == Success(k)
  {
    RootlessIs(Trim(raw), k, d);
    RootlessNormalizes(raw, Trim(raw)[..|k|]);
  }

  lemma LastStays(v: string)
    requires v != ""
    ensures Lower(v)[|v| - 1] == '.' <==> v[|v| - 1] == '.'
  {
  }

  lemma BracketedHost(t: string, k: string)
    requires Bracketed(k) && |k| <= |t| && Lower(t[..|k|]) == k && Until(k, ']') == |k| - 1
    ensures t != "" && WithoutPort(t) == Success(t[..|k|])
  {
    LowerKeeps(t[..|k|], ']');
    PrefixUntil(t, |k|, ']');
    assert Until(t, ']') == |k| - 1;
    assert t[0] == '[';
  }

  lemma PlainHost(t: string, k: string, d: nat)
    requires k != "" && !Bracketed(k) && ':' !in k && |k| <= d <= |t| && Lower(t[..|k|]) == k && DotsThenPort(t, |k|, d)
    ensures t != "" && WithoutPort(t) == Success(t[..d])
  {
    LowerKeeps(t[..|k|], ':');
    assert t[0] != '[';
    SpellingPort(t, |k|, d);
  }

  lemma PrefixUntil(t: string, n: nat, c: char)
    requires n <= |t| && Until(t[..n], c) < n
    ensures Until(t, c) == Until(t[..n], c)
  {
    var j := Until(t[..n], c);
    assert c !in t[..n][..j];
    assert forall i | 0 <= i < j :: t[..n][..j][i] == t[i];
    FirstIsFirst(t, c, j);
  }

  lemma SpellingPort(t: string, n: nat, d: nat)
    requires t != "" && t[0] != '[' && n <= d <= |t|
    requires ':' !in t[..n] && DotsThenPort(t, n, d)
    ensures WithoutPort(t) == Success(t[..d])
  {
    assert forall i | 0 <= i < d :: t[i] != ':' by {
      assert forall i | 0 <= i < n :: t[..n][i] == t[i];
    }
    if d < |t| {
      FirstIsFirst(t, ':', d);
    } else {
      assert ':' !in t;
      UntilNone(t, ':');
      assert t[..d] == t;
    }
  }

  // ---- canonicalisation, exactly -------------------------------------------------------------------

  /** The exact preimage of every key: what is normalised to `k` is what spells it. */
  lemma ExactPreimage(raw: string, k: string)
    requires Canonical(k)
    ensures NormalizeHost(raw) == Success(k) <==> Spells(Trim(raw), k)
  {
    if Spells(Trim(raw), k) {
      SpellingNormalizes(raw, k);
    }
    if NormalizeHost(raw) == Success(k) {
      NormalizedIsCanonical(raw);
    }
  }

  /** The range: the canonical strings and nothing else. */
  lemma RangeIsCanonical(k: string)
    ensures (exists raw :: NormalizeHost(raw) == Success(k)) <==> Canonical(k)
  {
    if Canonical(k) {
      var raw := k + ".";
      TrimIsIdentity(raw);
      assert raw[..|k|] == k;
      assert Bracketed(k) || DotsThenPort(raw, |k|, |raw|);
      SpellingNormalizes(raw, k);
    }
    if exists raw :: NormalizeHost(raw) == Success(k) {
      var raw :| NormalizeHost(raw) == Success(k);
      NormalizedIsCanonical(raw);
    }
  }

  /** A key is its own canonical form unless it ends in whitespace, which a key can: "a ." gives "a ". */
  lemma FixedPoint(k: string)
    requires Canonical(k)
    ensures NormalizeHost(k) == Success(k) <==> !IsWhitespace(k[|k| - 1])
  {
    TrimIsIdentity(k);
    if !IsWhitespace(k[|k| - 1]) {
      assert k[..|k|] == k;
      assert Bracketed(k) || DotsThenPort(k, |k|, |k|);
      SpellingNormalizes(k, k);
    } else {
      TrimShrinks(k);
      if NormalizeHost(k) == Success(k) {
        NormalizedIsCanonical(k);
      }
    }
  }

  /** What case has to do with it: a key holds no character from 'A' to 'Z', and each of its characters is
      one of the host's, moved to lower case. */
  lemma KeyLettersOf(raw: string) returns (n: nat)
    requires NormalizeHost(raw).Success?
    ensures
      var k := NormalizeHost(raw).value;
      KeyLetters(k) && LowerAt(raw, n, k)
  {
    NormalizedIsCanonical(raw);
    var before, after := TrimIsMiddle(raw);
    n := |before|;
    LettersAt(before, Trim(raw), after, NormalizeHost(raw).value);
  }

  /** From position `n` the string holds `k`, but for the case of 'A' to 'Z'. */
  predicate LowerAt(s: string, n: nat, k: string) {
    && n + |k| <= |s|
    && forall i | 0 <= i < |k| :: k[i] as int == s[n + i] as int + (if 65 <= s[n + i] as int <= 90 then 32 else 0)
  }

  lemma LettersAt(before: string, t: string, after: string, k: string)
    requires |k| <= |t| && LowersTo(t[..|k|], k)
    ensures LowerAt(before + t + after, |before|, k)
  {
    var s := before + t + after;
    forall i | 0 <= i < |k|
      ensures s[|before| + i] == t[i] && Lowered(t[i], k[i])
    {
      assert t[..|k|][i] == t[i];
    }
  }

  // ---- refused hosts -----------------------------------------------------------------------------------

  /** The position of the first colon, with something else than digits behind it. */
  ghost predicate BadPort(t: string, n: nat) {
    && n < |t| && t[n] == ':' && (forall i | 0 <= i < n :: t[i] != ':')
    && exists i | n < i < |t| :: !(48 <= t[i] as int <= 57)
  }

  /** The first `n` characters are dots, and nothing but a port follows. */
  ghost predicate OnlyDots(t: string, n: nat) {
    n <= |t| && DotsThenPort(t, 0, n)
  }

  lemma ColonSplits(t: string)
    requires t != "" && !Bracketed(t)
    ensures
      var n := Until(t, ':');
      && (WithoutPort(t) == Failure(InvalidPort) <==> BadPort(t, n))
      && (WithoutPort(t) == Success(t[..n]) <==> !BadPort(t, n))
  {
    var n := Until(t, ':');
    assert t[..|t|] == t;
    assert forall i | 0 <= i < n :: t[..n][i] == t[i];
    if n < |t| {
      assert forall i | n < i < |t| :: t[n + 1..][i - n - 1] == t[i];
    }
  }

  lemma FirstColon(t: string, n: nat)
    requires BadPort(t, n)
    ensures n == Until(t, ':')
  {
    FirstIsFirst(t, ':', n);
  }

  /** Which hosts are refused for a bracket that is not closed, and which for their port. */
  lemma RefusedForm(raw: string)
    ensures NormalizeHost(raw) == Failure(UnterminatedIpv6) <==> Bracketed(Trim(raw)) && ']' !in Trim(raw)
    ensures NormalizeHost(raw) == Failure(InvalidPort) <==> !Bracketed(Trim(raw)) && exists n: nat :: BadPort(Trim(raw), n)
  {
    var t := Trim(raw);
    if t != "" && Bracketed(t) {
      if Until(t, ']') == |t| {
        assert t[..|t|] == t;
      }
    } else if t != "" {
      ColonSplits(t);
      if n: nat :| BadPort(t, n) {
        FirstColon(t, n);
      }
    }
  }

  /** Refused as empty are those that are nothing but dots before the port. */
  lemma RefusedEmpty(raw: string)
    ensures NormalizeHost(raw) == Failure(EmptyHost) <==> Trim(raw) == "" || exists n: nat :: OnlyDots(Trim(raw), n)
  {
    var t := Trim(raw);
    if t != "" && !Bracketed(t) {
      DotsOnly(t);
      EmptyPlain(raw, t);
    } else if t != "" {
      EmptyLiteral(raw, t);
    }
  }

  lemma EmptyPlain(raw: string, t: string)
    requires t == Trim(raw) && t != "" && !Bracketed(t)
    ensures NormalizeHost(raw) == Failure(EmptyHost) <==> !BadPort(t, Until(t, ':')) && TrimDots(t[..Until(t, ':')]) == ""
  {
    ColonSplits(t);
  }

  lemma EmptyLiteral(raw: string, t: string)
    requires t == Trim(raw) && Bracketed(t)
    ensures NormalizeHost(raw) != Failure(EmptyHost) && forall n: nat :: !OnlyDots(t, n)
  {
    if WithoutPort(t).Success? {
      var host := WithoutPort(t).value;
      assert host[|host| - 1] == ']';
    }
    forall n: nat
      ensures !OnlyDots(t, n)
    {
      if n <= |t| {
        assert t[0] == '[';
      }
    }
  }

  /** As not ASCII, or as too long, only those that are. */
  lemma RefusedText(raw: string)
    ensures NormalizeHost(raw) == Failure(NonAscii) ==> exists i | 0 <= i < |Trim(raw)| :: Trim(raw)[i] as int >= 128
    ensures NormalizeHost(raw) == Failure(HostTooLong) ==> |Trim(raw)| > 253
  {
    var t := Trim(raw);
    if NormalizeHost(raw) == Failure(NonAscii) {
      LoweredIsNotAscii(t, TrimDots(WithoutPort(t).value));
    }
  }

  lemma LoweredIsNotAscii(t: string, r: string)
    requires |r| <= |t| && r == t[..|r|] && !Ascii(Lower(r))
    ensures exists i | 0 <= i < |t| :: t[i] as int >= 128
  {
    var i :| 0 <= i < |r| && Lower(r)[i] as int >= 128;
    assert Lowered(r[i], Lower(r)[i]);
    assert t[i] == r[i];
  }

  lemma DotsOnly(t: string)
    requires t != "" && !Bracketed(t)
    ensures !BadPort(t, Until(t, ':')) && TrimDots(t[..Until(t, ':')]) == "" <==> exists n: nat :: OnlyDots(t, n)
  {
    var m := Until(t, ':');
    if !BadPort(t, m) && TrimDots(t[..m]) == "" {
      assert forall i | 0 <= i < m :: t[..m][i] == t[i];
      assert OnlyDots(t, m);
    }
    if n: nat :| OnlyDots(t, n) {
      DotsEnd(t, n);
      TrimDotsUnique(t[..n], 0);
    }
  }

  lemma DotsEnd(t: string, n: nat)
    requires OnlyDots(t, n)
    ensures n == Until(t, ':') && !BadPort(t, n)
  {
    if n < |t| {
      FirstIsFirst(t, ':', n);
    } else {
      assert ':' !in t;
      UntilNone(t, ':');
    }
  }

  // ---- labels ---------------------------------------------------------------------------------------

  predicate LabelChar(c: char) {
    'a' <= c <= 'z' || '0' <= c <= '9' || c == '-'
  }

  predicate LabelChars(s: string) {
    forall i | 0 <= i < |s| :: LabelChar(s[i])
  }

  /** A DNS label in lower case, without the punycode prefix: sections 2.3.4 of RFC 1035 and 2.1 of RFC 1123. */
  predicate IsLabel(s: string) {
    && 1 <= |s| <= 63
    && (forall i | 0 <= i < |s| :: 97 <= s[i] as int <= 122 || 48 <= s[i] as int <= 57 || s[i] as int == 45)
    && s[0] != '-' && s[|s| - 1] != '-'
    && !("xn--" <= s)
  }

  function ValidateSyntax(name: string): Result<string, LabelError> {
    CheckSyntax(Lower(Trim(name)))
  }

  function CheckSyntax(lowered: string): Result<string, LabelError> {
    if lowered == "" then Failure(EmptyLabel)
    else if Utf8Length(lowered) > MAX_LABEL then Failure(LabelTooLong)
    else if !LabelChars(lowered) then Failure(BadCharacter)
    else if lowered[0] == '-' || lowered[|lowered| - 1] == '-' then Failure(EdgeHyphen)
    else if "xn--" <= lowered then Failure(PunycodePrefix)
    else Success(lowered)
  }

  lemma ChecksLabels(lowered: string)
    ensures CheckSyntax(lowered).Success? <==> IsLabel(lowered)
    ensures CheckSyntax(lowered).Success? ==> CheckSyntax(lowered).value == lowered
  {
    if LabelChars(lowered) {
      AsciiLength(lowered);
    }
  }

  /** Accepted are exactly the labels, up to case and surrounding whitespace. */
  lemma AcceptsLabels(name: string, l: string)
    ensures ValidateSyntax(name) == Success(l) <==> l == Lower(Trim(name)) && IsLabel(l)
  {
    ChecksLabels(Lower(Trim(name)));
  }

  /** The label that comes out holds the request's characters in lower case, letter by letter. */
  lemma LabelLetters(name: string, l: string)
    ensures ValidateSyntax(name) == Success(l) <==> LowersTo(Trim(name), l) && IsLabel(l)
  {
    AcceptsLabels(name, l);
    LowersIsLower(Trim(name), l);
  }

  /** What a refused label is refused for. */
  lemma RefusedLabel(name: string)
    ensures
      var t := Trim(name);
      match ValidateSyntax(name)
      case Success(_) => true
      case Failure(EmptyLabel) => t == ""
      case Failure(LabelTooLong) => |t| > 63 || exists i | 0 <= i < |t| :: t[i] as int >= 128
      case Failure(BadCharacter) =>
        exists i | 0 <= i < |t| ::
          !(65 <= t[i] as int <= 90 || 97 <= t[i] as int <= 122 || 48 <= t[i] as int <= 57 || t[i] as int == 45)
      case Failure(EdgeHyphen) => t != "" && (t[0] as int == 45 || t[|t| - 1] as int == 45)
      case Failure(PunycodePrefix) => |t| >= 4 && SameLetters(t[..4], "xn--")
  {
    var t := Trim(name);
    match ValidateSyntax(name)
    case Failure(LabelTooLong) => LongText(t);
    case Failure(BadCharacter) => OddCharacter(t);
    case Failure(EdgeHyphen) => EdgeLetters(t);
    case Failure(PunycodePrefix) => PrefixLetters(t);
    case _ =>
  }

  lemma EdgeLetters(t: string)
    requires t != "" && (Lower(t)[0] == '-' || Lower(t)[|t| - 1] == '-')
    ensures t[0] as int == 45 || t[|t| - 1] as int == 45
  {
    assert Lowered(t[0], Lower(t)[0]) && Lowered(t[|t| - 1], Lower(t)[|t| - 1]);
  }

  lemma LongText(t: string)
    requires Utf8Length(Lower(t)) > 63
    ensures |t| > 63 || exists i | 0 <= i < |t| :: t[i] as int >= 128
  {
    if forall i | 0 <= i < |t| :: t[i] as int < 128 {
      forall i | 0 <= i < |t|
        ensures Lower(t)[i] as int < 128
      {
        assert Lowered(t[i], Lower(t)[i]);
      }
      AsciiLength(Lower(t));
    }
  }

  lemma OddCharacter(t: string)
    requires !LabelChars(Lower(t))
    ensures exists i | 0 <= i < |t| ::
      !(65 <= t[i] as int <= 90 || 97 <= t[i] as int <= 122 || 48 <= t[i] as int <= 57 || t[i] as int == 45)
  {
    var i :| 0 <= i < |t| && !LabelChar(Lower(t)[i]);
    assert Lowered(t[i], Lower(t)[i]);
  }

  lemma PrefixLetters(t: string)
    requires "xn--" <= Lower(t)
    ensures |t| >= 4 && SameLetters(t[..4], "xn--")
  {
    var p := t[..4];
    assert forall i | 0 <= i < 4 :: Lowered(p[i], Lower(t)[i]);
    assert forall i | 0 <= i < 4 :: Lower(t)[i] == "xn--"[i];
  }

  lemma LabelIsAccepted(l: string)
    requires IsLabel(l)
    ensures ValidateSyntax(l) == Success(l)
  {
    TrimIsIdentity(l);
    assert Lower(l) == l;
    AcceptsLabels(l, l);
  }

  const RESERVED: seq<string> := [
    "www", "api", "admin", "dashboard", "app", "status", "docs", "mail", "smtp", "ns", "ns1", "ns2", "mx", "cdn",
    "static", "assets", "edge", "control", "grpc", "internal", "metrics", "health", "localhost", "test", "support",
    "billing", "account", "login", "auth", "security", "norupo"]

  predicate IsReserved(name: string) {
    exists i | 0 <= i < |RESERVED| :: SameIgnoringCase(RESERVED[i], name)
  }

  /** The words that nobody may claim without a grant. */
  const RESERVED_NAMES: set<string> := {
    "account", "admin", "api", "app", "assets", "auth", "billing", "cdn", "control", "dashboard", "docs", "edge", "grpc",
    "health", "internal", "localhost", "login", "mail", "metrics", "mx", "norupo", "ns", "ns1", "ns2", "security", "smtp",
    "static", "status", "support", "test", "www"}

  ghost predicate ReservedName(name: string) {
    exists w | w in RESERVED_NAMES :: SameLetters(w, name)
  }

  lemma ReservedWords(w: string)
    ensures w in RESERVED <==> w in RESERVED_NAMES
  {
  }

  /** The list holds these words and is searched up to case. */
  lemma ReservedExactly(name: string)
    ensures IsReserved(name) <==> ReservedName(name)
  {
    if IsReserved(name) {
      var i :| 0 <= i < |RESERVED| && SameIgnoringCase(RESERVED[i], name);
      SameIsLetterwise(RESERVED[i], name);
      ReservedWords(RESERVED[i]);
    }
    if ReservedName(name) {
      var w :| w in RESERVED_NAMES && SameLetters(w, name);
      SameIsLetterwise(w, name);
      ReservedWords(w);
    }
  }

  const ALPHABET: string := "abcdefghijkmnpqrstuvwxyz23456789"
  const GENERATED_LENGTH: nat := 12

  predicate Generated(s: string) {
    |s| == GENERATED_LENGTH && forall i | 0 <= i < |s| :: s[i] in ALPHABET
  }

  lemma PunycodeHasHyphen(s: string)
    requires "xn--" <= s
    ensures '-' in s
  {
    assert s[2] == '-';
  }

  /** Whatever the generator draws is a valid label and never a reserved one. */
  lemma GeneratedIsFreeLabel(s: string)
    requires Generated(s)
    ensures IsLabel(s) && !IsReserved(s)
  {
    forall i | 0 <= i < |s|
      ensures LabelChar(s[i]) && s[i] != '-'
    {
    }
    if "xn--" <= s {
      PunycodeHasHyphen(s);
    }
    LongIsFree(s);
  }

  lemma LongIsFree(s: string)
    requires |s| == GENERATED_LENGTH
    ensures !IsReserved(s)
  {
    ReservedAreShort();
    forall i | 0 <= i < |RESERVED|
      ensures !SameIgnoringCase(RESERVED[i], s)
    {
      assert RESERVED[i] in RESERVED;
      assert |Lower(RESERVED[i])| < |Lower(s)|;
    }
  }

  lemma ReservedAreShort()
    ensures forall w | w in RESERVED :: |w| < GENERATED_LENGTH
  {
  }

  // ---- public hosts -----------------------------------------------------------------------------------

  function PublicHost(subdomain: string, base: string): Result<string, HostError> {
    match ValidateSyntax(subdomain)
    case Failure(e) => Failure(BadLabel(e))
    case Success(name) =>
      match NormalizeHost(base)
      case Failure(e) => Failure(e)
      case Success(b) =>
        if |name + "." + b| > MAX_HOST then Failure(HostTooLong) else Success(name + "." + b)
  }

  function SubdomainOf(host: string, base: string): Option<string> {
    match NormalizeHost(host)
    case Failure(_) => None
    case Success(h) =>
      match NormalizeHost(base)
      case Failure(_) => None
      case Success(b) => ChildName(h, b)
  }

  function ChildName(h: string, b: string): Option<string> {
    if !EndsWith(h, b) then None
    else
      var head := h[..|h| - |b|];
      if !EndsWith(head, ".") then None
      else
        var name := head[..|head| - 1];
        if name == "" || '.' in name then None else Some(name)
  }

  lemma ChildHasName(l: string, b: string)
    requires l != "" && '.' !in l
    ensures ChildName(l + "." + b, b) == Some(l)
  {
    EndsWithParts(l + ".", b);
    EndsWithParts(l, ".");
  }

  lemma NameOfChild(h: string, b: string, l: string)
    requires ChildName(h, b) == Some(l)
    ensures h == l + "." + b && l != "" && '.' !in l
  {
    var head := h[..|h| - |b|];
    assert h == head + b;
    assert head == head[..|head| - 1] + ".";
  }

  /** A host has subdomain `l` exactly when it is a direct child: its key is `l`, a dot, and the
      base's key, with `l` nonempty and free of dots. */
  lemma DirectChild(host: string, base: string, l: string)
    ensures SubdomainOf(host, base) == Some(l) <==>
      && NormalizeHost(host).Success? && NormalizeHost(base).Success?
      && NormalizeHost(host).value == l + "." + NormalizeHost(base).value
      && l != "" && '.' !in l
  {
    if NormalizeHost(host).Success? && NormalizeHost(base).Success? {
      var h, b := NormalizeHost(host).value, NormalizeHost(base).value;
      if h == l + "." + b && l != "" && '.' !in l {
        ChildHasName(l, b);
      }
      if ChildName(h, b) == Some(l) {
        NameOfChild(h, b, l);
      }
    }
  }

  lemma LabelText(l: string)
    requires LabelChars(l)
    ensures Lower(l + ".") == l + "." && Ascii(l + ".")
  {
  }

  lemma JoinedText(l: string, b: string)
    requires LabelChars(l) && Lower(b) == b && Ascii(b)
    ensures Lower(l + "." + b) == l + "." + b && Ascii(l + "." + b)
  {
    LabelText(l);
    LowerParts(l + ".", b);
    AsciiParts(l + ".", b);
  }

  lemma JoinedShape(l: string, b: string)
    requires IsLabel(l) && Canonical(b) && |l + "." + b| <= MAX_HOST
    ensures
      var h := l + "." + b;
      && h != "" && !Bracketed(h) && h[|h| - 1] == b[|b| - 1]
      && (Canonical(h) <==> ':' !in b)
  {
    var h := l + "." + b;
    JoinedText(l, b);
    assert h[0] == l[0] && LabelChar(l[0]);
    assert h[|h| - 1] == b[|b| - 1];
    ColonOfJoin(l, b);
  }

  lemma ColonOfJoin(l: string, b: string)
    requires LabelChars(l)
    ensures ':' in l + "." + b <==> ':' in b
  {
    var h := l + "." + b;
    assert h[|l| + 1..] == b;
    assert forall i | 0 <= i < |l| :: h[i] == l[i];
    if ':' in h {
      var i :| 0 <= i < |h| && h[i] == ':';
      assert h[i] == b[i - |l| - 1];
    }
  }

  lemma PublicHostParts(subdomain: string, base: string)
    requires PublicHost(subdomain, base).Success?
    ensures
      var name, h := Lower(Trim(subdomain)), PublicHost(subdomain, base).value;
      && NormalizeHost(base).Success?
      && IsLabel(name) && h == name + "." + NormalizeHost(base).value && |h| <= MAX_HOST
  {
    AcceptsLabels(subdomain, Lower(Trim(subdomain)));
  }

  lemma KeyIsCanonical(raw: string, k: string)
    requires NormalizeHost(raw) == Success(k)
    ensures Canonical(k)
  {
    NormalizedIsCanonical(raw);
  }

  /** The public host of a label is canonical exactly when the base's key has no colon. */
  lemma PublicHostCanonical(subdomain: string, base: string)
    requires PublicHost(subdomain, base).Success?
    ensures Canonical(NormalizeHost(base).value) && !Bracketed(PublicHost(subdomain, base).value)
    ensures Canonical(PublicHost(subdomain, base).value) <==> ':' !in NormalizeHost(base).value
  {
    PublicHostParts(subdomain, base);
    KeyIsCanonical(base, NormalizeHost(base).value);
    JoinedShape(Lower(Trim(subdomain)), NormalizeHost(base).value);
  }

  lemma ChildOfKey(base: string, b: string, name: string, h: string)
    requires NormalizeHost(base) == Success(b)
    requires name != "" && '.' !in name && h == name + "." + b
    ensures SubdomainOf(h, base) == Some(name) <==> NormalizeHost(h) == Success(h)
  {
    ChildHasName(name, b);
    if SubdomainOf(h, base) == Some(name) {
      NameOfChild(NormalizeHost(h).value, b, name);
    }
  }

  lemma OwnChild(base: string, b: string, name: string, h: string)
    requires NormalizeHost(base) == Success(b) && Canonical(b)
    requires IsLabel(name) && h == name + "." + b && |h| <= MAX_HOST
    ensures SubdomainOf(h, base) == Some(name) <==> ':' !in b && !IsWhitespace(b[|b| - 1])
  {
    LabelHasNoDot(name);
    ChildOfKey(base, b, name, h);
    JoinedKey(name, b, h);
  }

  lemma JoinedKey(name: string, b: string, h: string)
    requires Canonical(b) && IsLabel(name) && h == name + "." + b && |h| <= MAX_HOST
    ensures NormalizeHost(h) == Success(h) <==> ':' !in b && !IsWhitespace(b[|b| - 1])
  {
    JoinedShape(name, b);
    OwnKey(h, b);
  }

  /** `subdomain_of` undoes `public_host` exactly when the base's key has no colon and does not end
      in whitespace. */
  lemma InverseExactly(subdomain: string, base: string)
    requires PublicHost(subdomain, base).Success?
    ensures
      var b := NormalizeHost(base).value;
      SubdomainOf(PublicHost(subdomain, base).value, base) == Some(Lower(Trim(subdomain)))
      <==> ':' !in b && !IsWhitespace(b[|b| - 1])
  {
    PublicHostParts(subdomain, base);
    KeyIsCanonical(base, NormalizeHost(base).value);
    OwnChild(base, NormalizeHost(base).value, Lower(Trim(subdomain)), PublicHost(subdomain, base).value);
  }

  lemma LabelHasNoDot(l: string)
    requires IsLabel(l)
    ensures '.' !in l
  {
  }

  lemma OwnKey(h: string, b: string)
    requires h != "" && b != "" && h[|h| - 1] == b[|b| - 1]
    requires Canonical(h) <==> ':' !in b
    ensures NormalizeHost(h) == Success(h) <==> ':' !in b && !IsWhitespace(b[|b| - 1])
  {
    if Canonical(h) {
      FixedPoint(h);
    } else if NormalizeHost(h).Success? {
      NormalizedIsCanonical(h);
    }
  }

  /** A registered subdomain can be reached if and only if the base's key has no colon, and then by
      every spelling of its host and by nothing else. */
  lemma RegisteredIsReachable(subdomain: string, base: string)
    requires PublicHost(subdomain, base).Success?
    ensures
      var h := PublicHost(subdomain, base).value;
      var b := NormalizeHost(base).value;
      && ((exists raw :: NormalizeHost(raw) == Success(h)) <==> ':' !in b)
      && (':' !in b ==> forall raw :: NormalizeHost(raw) == Success(h) <==> Spells(Trim(raw), h))
  {
    var h := PublicHost(subdomain, base).value;
    PublicHostCanonical(subdomain, base);
    RangeIsCanonical(h);
    if Canonical(h) {
      forall raw
        ensures NormalizeHost(raw) == Success(h) <==> Spells(Trim(raw), h)
      {
        ExactPreimage(raw, h);
      }
    }
  }

  // ---- inputs at which the general laws fail ------------------------------------------------------------

  /** A key that is not its own canonical form. */
  lemma SpaceDotIsNoFixedPoint()
    ensures NormalizeHost("a .") == Success("a ") && NormalizeHost("a ") != Success("a ")
  {
    var t, k := "a .", "a ";
    TrimIsIdentity(t);
    assert t[..2] == k && Lower(k) == k;
    assert Canonical(k);
    assert DotsThenPort(t, 2, 3);
    SpellingNormalizes(t, k);
    FixedPoint(k);
  }

  lemma LoopbackIsKey()
    ensures NormalizeHost("[::1]") == Success("[::1]")
  {
    var k := "[::1]";
    assert Lower(k) == k && Ascii(k);
    FirstIsFirst(k, ']', 4);
    assert Canonical(k);
    FixedPoint(k);
  }

  /** Under a base whose key has a colon every label is accepted, none is recovered, and no request
      reaches its host. */
  lemma ColonLosesLabels(base: string, b: string, l: string)
    requires NormalizeHost(base) == Success(b) && ':' in b
    requires IsLabel(l) && |l + "." + b| <= MAX_HOST
    ensures PublicHost(l, base) == Success(l + "." + b)
    ensures SubdomainOf(l + "." + b, base) != Some(l)
    ensures forall raw :: NormalizeHost(raw) != Success(l + "." + b)
  {
    LabelIsAccepted(l);
    KeyIsCanonical(base, b);
    OwnChild(base, b, l, l + "." + b);
    RegisteredIsReachable(l, base);
  }

  /** The loopback literal is such a base. */
  lemma LiteralBaseLosesLabel()
    ensures NormalizeHost("[::1]") == Success("[::1]")
    ensures PublicHost("a", "[::1]") == Success("a" + "." + "[::1]")
    ensures SubdomainOf("a" + "." + "[::1]", "[::1]") != Some("a")
    ensures forall raw :: NormalizeHost(raw) != Success("a" + "." + "[::1]")
  {
    LoopbackIsKey();
    LetterUnderLiteral("a", "[::1]");
    ColonLosesLabels("[::1]", "[::1]", "a");
  }

  lemma LetterUnderLiteral(l: string, b: string)
    requires l == "a" && b == "[::1]"
    ensures IsLabel(l) && ':' in b && |l + "." + b| <= MAX_HOST
  {
    assert b[1] == ':';
  }

  // ---- storage keys -----------------------------------------------------------------------------------

  datatype RoutingKey = Host(host: string) | TcpPort(port: nat)

  function Decimal(n: nat): string {
    if n < 10 then [('0' as int + n) as char] else Decimal(n / 10) + [('0' as int + n % 10) as char]
  }

  function StorageKey(key: RoutingKey): string {
    match key
    case Host(h) => h
    case TcpPort(p) => "tcp:" + Decimal(p)
  }

  lemma {:induction false} DecimalInjective(m: nat, n: nat)
    requires Decimal(m) == Decimal(n)
    ensures m == n
    decreases m
  {
    assert Decimal(m)[|Decimal(m)| - 1] == Decimal(n)[|Decimal(n)| - 1];
    assert m % 10 == n % 10;
    if m >= 10 && n >= 10 {
      assert Decimal(m)[..|Decimal(m)| - 1] == Decimal(m / 10);
      assert Decimal(n)[..|Decimal(n)| - 1] == Decimal(n / 10);
      DecimalInjective(m / 10, n / 10);
    } else {
      assert |Decimal(m / 10)| >= 1 && |Decimal(n / 10)| >= 1;
    }
  }

  lemma {:induction false} DecimalDigits(n: nat)
    ensures AllDigits(Decimal(n))
    decreases n
  {
    if n >= 10 {
      DecimalDigits(n / 10);
    }
  }

  /** The number that a string of decimal digits stands for. */
  function ValueOf(digits: string): int {
    if digits == "" then 0 else 10 * ValueOf(digits[..|digits| - 1]) + (digits[|digits| - 1] as int - 48)
  }

  /** A port is stored as "tcp:" and its digits, the first of several not zero. */
  lemma {:induction false} PortIsStored(port: nat)
    ensures
      var key := StorageKey(TcpPort(port));
      && "tcp:" < key
      && (forall i | 4 <= i < |key| :: 48 <= key[i] as int <= 57)
      && ValueOf(key[4..]) == port
      && (|key| > 5 ==> key[4] != '0')
  {
    DigitsStand(port);
    var key := StorageKey(TcpPort(port));
    assert key[4..] == Decimal(port);
    assert forall i | 4 <= i < |key| :: key[i] == Decimal(port)[i - 4];
  }

  lemma {:induction false} DigitsStand(n: nat)
    ensures
      var ds := Decimal(n);
      && ds != "" && ValueOf(ds) == n && (forall i | 0 <= i < |ds| :: 48 <= ds[i] as int <= 57)
      && (n > 0 ==> ds[0] != '0') && (n == 0 ==> |ds| == 1)
    decreases n
  {
    var ds := Decimal(n);
    if n >= 10 {
      DigitsStand(n / 10);
      assert ds[..|ds| - 1] == Decimal(n / 10);
    } else {
      assert ds[..0] == "";
    }
  }

  /** A host that a tunnel can have: a canonical key, or a label under any base. */
  predicate TunnelHost(h: string) {
    Canonical(h) || '.' in h
  }

  /** Distinct keys are stored under distinct strings; in particular no host collides with a port. */
  lemma StorageKeysInjective(a: RoutingKey, b: RoutingKey)
    requires a.Host? ==> TunnelHost(a.host)
    requires b.Host? ==> TunnelHost(b.host)
    ensures StorageKey(a) == StorageKey(b) ==> a == b
  {
    if StorageKey(a) == StorageKey(b) {
      if a.TcpPort? && b.TcpPort? {
        assert StorageKey(a)[4..] == Decimal(a.port) && StorageKey(b)[4..] == Decimal(b.port);
        DecimalInjective(a.port, b.port);
      } else if a.TcpPort? {
        PortIsNoHost(a.port, b.host);
      } else if b.TcpPort? {
        PortIsNoHost(b.port, a.host);
      }
    }
  }

  lemma PortIsNoHost(p: nat, h: string)
    requires TunnelHost(h)
    ensures "tcp:" + Decimal(p) != h
  {
    var key := "tcp:" + Decimal(p);
    DecimalDigits(p);
    assert key[3] == ':' && key[0] == 't';
    forall i | 0 <= i < |key|
      ensures key[i] != '.'
    {
      if i >= 4 {
        assert key[i] == Decimal(p)[i - 4];
      }
    }
  }
}
