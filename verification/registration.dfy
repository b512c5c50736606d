/** Which routing keys a session may register: the principal's grants and the resolution of a
    tunnel request into a key. */
module Registration {
  import opened Wrappers
  import opened Text
  import opened Routing

  datatype Limits = Limits(maxTunnels: nat, maxConcurrentStreams: nat)

  datatype Principal = Principal(
    accountId: string,
    reservedSubdomains: seq<string>,
    customDomains: seq<string>,
    limits: Limits
  )

  /** An OpenTunnel request; empty strings stand for absent fields. */
  datatype TunnelSpec = Http(subdomain: string, customDomain: string) | Tcp(remotePort: nat) | Missing

  datatype Refusal = NotVerified | Reserved | Invalid(error: HostError) | PortOutOfRange | NoAutomaticPort | MissingSpec

  predicate MayClaimSubdomain(p: Principal, subdomain: string) {
    exists i | 0 <= i < |p.reservedSubdomains| :: SameIgnoringCase(p.reservedSubdomains[i], subdomain)
  }

  predicate EntryCovers(allowed: string, domain: string) {
    if "*." <= allowed then
      var suffix := allowed[2..];
      EndsWith(domain, suffix) &&
      var head := domain[..|domain| - |suffix|];
      EndsWith(head, ".") && |head| > 1
    else SameIgnoringCase(allowed, domain)
  }

  predicate MayUseCustomDomain(p: Principal, domain: string) {
    exists i | 0 <= i < |p.customDomains| :: EntryCovers(p.customDomains[i], domain)
  }

  /** An entry covers itself up to case, or, as a wildcard, exactly the names strictly below it. */
  lemma CoversExactly(allowed: string, domain: string)
    ensures EntryCovers(allowed, domain) <==>
      if "*." <= allowed then exists below :: below != "" && domain == below + "." + allowed[2..]
      else SameLetters(allowed, domain)
  {
    SameIsLetterwise(allowed, domain);
    if "*." <= allowed {
      var suffix := allowed[2..];
      if EntryCovers(allowed, domain) {
        var head := domain[..|domain| - |suffix|];
        var below := head[..|head| - 1];
        assert head == below + ".";
        assert domain == head + suffix;
        assert below != "" && domain == below + "." + suffix;
      }
      if exists below :: below != "" && domain == below + "." + suffix {
        var below :| below != "" && domain == below + "." + suffix;
        EndsWithParts(below + ".", suffix);
        EndsWithParts(below, ".");
      }
    }
  }

  lemma SuffixLower(s: string, suffix: string)
    requires Lower(s) == s && EndsWith(s, suffix)
    ensures Lower(suffix) == suffix
  {
    var head := s[..|s| - |suffix|];
    assert s == head + suffix;
    LowerParts(head, suffix);
    assert Lower(s)[|head|..] == Lower(suffix);
  }

  /** The suffix of a wildcard is compared with its case: one that is not in lower case covers no key. */
  lemma WildcardNeedsLowerCase(allowed: string, domain: string)
    requires "*." <= allowed && Lower(allowed) != allowed && Canonical(domain)
    ensures !EntryCovers(allowed, domain)
  {
    var suffix := allowed[2..];
    assert allowed == "*." + suffix;
    assert Lower("*.") == "*.";
    LowerParts("*.", suffix);
    assert Lower(suffix) != suffix;
    if EndsWith(domain, suffix) {
      SuffixLower(domain, suffix);
    }
  }

  /** Such a wildcard, and a name it was meant to cover: as an exact entry it would, and in lower
      case it would. */
  lemma UpperCaseWildcardFails()
    ensures Canonical("a.b")
    ensures EntryCovers("a.B", "a.b") && EntryCovers("*.b", "a.b") && !EntryCovers("*.B", "a.b")
  {
    var k := "a.b";
    assert Lower(k) == k && Lower("a.B") == k;
    assert "*.b"[2..] == "b" && "*.B"[2..] == "B";
    assert "a" + "." + "b" == k;
    CoversExactly("*.b", k);
    assert Lower("*.B")[2] == 'b' && "*.B"[2] == 'B';
    WildcardNeedsLowerCase("*.B", k);
  }

  function ResolveHttp(p: Principal, base: string, generated: string, subdomain: string, customDomain: string): Result<RoutingKey, Refusal> {
    if customDomain != "" then
      match NormalizeHost(customDomain)
      case Failure(e) => Failure(Invalid(e))
      case Success(domain) => if MayUseCustomDomain(p, domain) then Success(Host(domain)) else Failure(NotVerified)
    else if subdomain == "" then
      match PublicHost(generated, base)
      case Failure(e) => Failure(Invalid(e))
      case Success(host) => Success(Host(host))
    else
      match ValidateSyntax(subdomain)
      case Failure(e) => Failure(Invalid(BadLabel(e)))
      case Success(name) =>
        if IsReserved(name) && !MayClaimSubdomain(p, name) then Failure(Reserved)
        else match PublicHost(name, base)
          case Failure(e) => Failure(Invalid(e))
          case Success(host) => Success(Host(host))
  }

  function ResolveTcp(remotePort: nat): Result<RoutingKey, Refusal> {
    if remotePort > 65535 then Failure(PortOutOfRange)
    else if remotePort == 0 then Failure(NoAutomaticPort)
    else Success(TcpPort(remotePort))
  }

  function Resolve(p: Principal, base: string, generated: string, spec: TunnelSpec): Result<RoutingKey, Refusal> {
    match spec
    case Http(subdomain, customDomain) => ResolveHttp(p, base, generated, subdomain, customDomain)
    case Tcp(port) => ResolveTcp(port)
    case Missing => Failure(MissingSpec)
  }

  // ---- what may be leased ---------------------------------------------------------------------------

  /** One of the account's entries is the label, up to case. */
  ghost predicate Granted(p: Principal, l: string) {
    exists i | 0 <= i < |p.reservedSubdomains| :: SameLetters(p.reservedSubdomains[i], l)
  }

  lemma GrantedExactly(p: Principal, l: string)
    ensures MayClaimSubdomain(p, l) <==> Granted(p, l)
  {
    forall i | 0 <= i < |p.reservedSubdomains|
      ensures SameIgnoringCase(p.reservedSubdomains[i], l) <==> SameLetters(p.reservedSubdomains[i], l)
    {
      SameIsLetterwise(p.reservedSubdomains[i], l);
    }
  }

  /** The two checks together. */
  lemma MayExactly(p: Principal, l: string)
    ensures IsReserved(l) && !MayClaimSubdomain(p, l) <==> ReservedName(l) && !Granted(p, l)
  {
    ReservedExactly(l);
    GrantedExactly(p, l);
  }

  /** A direct child of the base under a valid label that is not reserved or has been granted. */
  ghost predicate PermittedLabel(p: Principal, base: string, h: string, l: string) {
    && IsLabel(l) && (ReservedName(l) ==> Granted(p, l))
    && NormalizeHost(base).Success? && h == l + "." + NormalizeHost(base).value && |h| <= MAX_HOST
  }

  /** One of the account's domains covers the name. */
  ghost predicate Covered(p: Principal, h: string) {
    exists i | 0 <= i < |p.customDomains| :: EntryCovers(p.customDomains[i], h)
  }

  ghost predicate Permitted(p: Principal, base: string, key: RoutingKey) {
    match key
    case Host(h) =>
      || (exists l :: PermittedLabel(p, base, h, l))
      || (Canonical(h) && Covered(p, h))
    case TcpPort(port) => 1 <= port <= 65535
  }

  /** The host of a valid label, in one piece. */
  lemma LabelHost(l: string, base: string, h: string)
    requires IsLabel(l)
    ensures PublicHost(l, base) == Success(h) <==>
      NormalizeHost(base).Success? && h == l + "." + NormalizeHost(base).value && |h| <= MAX_HOST
  {
    LabelIsAccepted(l);
  }

  // ---- what each request resolves to -------------------------------------------------------------------

  /** The label that a request without a custom domain asks for: its own in lower case, or the one drawn. */
  predicate LabelAsked(subdomain: string, generated: string, l: string) {
    if subdomain == "" then l == generated else LowersTo(Trim(subdomain), l)
  }

  lemma DrawnResolves(p: Principal, base: string, generated: string, h: string)
    requires Generated(generated)
    ensures ResolveHttp(p, base, generated, "", "") == Success(Host(h)) <==> PermittedLabel(p, base, h, generated)
    ensures ResolveHttp(p, base, generated, "", "") != Failure(Reserved) && ResolveHttp(p, base, generated, "", "") != Failure(NotVerified)
  {
    GeneratedIsFreeLabel(generated);
    ReservedExactly(generated);
    LabelHost(generated, base, h);
  }

  lemma LabelNamed(p: Principal, base: string, generated: string, subdomain: string, l: string, h: string)
    requires subdomain != "" && ValidateSyntax(subdomain) == Success(l) && IsLabel(l)
    ensures ResolveHttp(p, base, generated, subdomain, "") == Success(Host(h)) <==> PermittedLabel(p, base, h, l)
    ensures ResolveHttp(p, base, generated, subdomain, "") == Failure(Reserved) <==> ReservedName(l) && !Granted(p, l)
    ensures ResolveHttp(p, base, generated, subdomain, "") != Failure(NotVerified)
  {
    MayExactly(p, l);
    LabelHost(l, base, h);
  }

  lemma NamedResolves(p: Principal, base: string, generated: string, subdomain: string, l: string, h: string)
    requires subdomain != "" && LowersTo(Trim(subdomain), l)
    ensures ResolveHttp(p, base, generated, subdomain, "") == Success(Host(h)) <==> PermittedLabel(p, base, h, l)
    ensures ResolveHttp(p, base, generated, subdomain, "") == Failure(Reserved) <==> IsLabel(l) && ReservedName(l) && !Granted(p, l)
    ensures ResolveHttp(p, base, generated, subdomain, "") != Failure(NotVerified)
  {
    if IsLabel(l) {
      LabelLetters(subdomain, l);
      LabelNamed(p, base, generated, subdomain, l, h);
    } else {
      NoLabelResolves(p, base, generated, subdomain, l);
    }
  }

  lemma NoLabelResolves(p: Principal, base: string, generated: string, subdomain: string, l: string)
    requires subdomain != "" && LowersTo(Trim(subdomain), l) && !IsLabel(l)
    ensures
      var r := ResolveHttp(p, base, generated, subdomain, "");
      r.Failure? && r.error.Invalid?
  {
    if ValidateSyntax(subdomain).Success? {
      var l' := ValidateSyntax(subdomain).value;
      LabelLetters(subdomain, l');
      SameLabel(Trim(subdomain), l, l');
    }
  }

  lemma SameLabel(t: string, l: string, l': string)
    requires LowersTo(t, l) && LowersTo(t, l')
    ensures l == l'
  {
    LowersIsLower(t, l);
    LowersIsLower(t, l');
  }

  lemma SpelledKey(raw: string, h: string)
    ensures NormalizeHost(raw) == Success(h) <==> Canonical(h) && Spells(Trim(raw), h)
  {
    if NormalizeHost(raw) == Success(h) {
      NormalizedIsCanonical(raw);
    } else if Canonical(h) {
      ExactPreimage(raw, h);
    }
  }

  lemma DomainIs(p: Principal, base: string, generated: string, subdomain: string, customDomain: string, h: string)
    requires customDomain != ""
    ensures
      var r := ResolveHttp(p, base, generated, subdomain, customDomain);
      && (r == Success(Host(h)) <==>
            Canonical(h) && Spells(Trim(customDomain), h) && Covered(p, h))
      && r != Failure(Reserved)
  {
    SpelledKey(customDomain, h);
  }

  /** Every request, exactly: a custom domain wins over a subdomain and must be covered by an entry; a label
      must not be reserved, or be granted; without either the drawn label is taken. */
  lemma ResolvedHost(p: Principal, base: string, generated: string, subdomain: string, customDomain: string, h: string)
    requires Generated(generated)
    ensures Resolve(p, base, generated, Http(subdomain, customDomain)) == Success(Host(h)) <==>
      if customDomain != "" then
        Canonical(h) && Spells(Trim(customDomain), h) && Covered(p, h)
      else exists l :: LabelAsked(subdomain, generated, l) && PermittedLabel(p, base, h, l)
  {
    if customDomain != "" {
      DomainIs(p, base, generated, subdomain, customDomain, h);
    } else if subdomain == "" {
      DrawnResolves(p, base, generated, h);
      assert LabelAsked(subdomain, generated, generated);
    } else {
      var l := Lower(Trim(subdomain));
      LowersIsLower(Trim(subdomain), l);
      NamedResolves(p, base, generated, subdomain, l, h);
      forall l' | LabelAsked(subdomain, generated, l')
        ensures l' == l
      {
        SameLabel(Trim(subdomain), l, l');
      }
    }
  }

  /** And the refusals: a reserved label without a grant, a domain that no entry covers, a port that is
      missing, or none. A port in range is the key. */
  lemma RefusedRequests(p: Principal, base: string, generated: string, spec: TunnelSpec)
    requires Generated(generated)
    ensures
      var r := Resolve(p, base, generated, spec);
      match spec
      case Missing => r == Failure(MissingSpec)
      case Tcp(port) =>
        r == (if port == 0 then Failure(NoAutomaticPort) else if port > 65535 then Failure(PortOutOfRange) else Success(TcpPort(port)))
      case Http(subdomain, customDomain) =>
        && (r == Failure(Reserved) <==>
              customDomain == "" && subdomain != "" &&
              exists l :: LowersTo(Trim(subdomain), l) && IsLabel(l) && ReservedName(l) && !Granted(p, l))
        && (r == Failure(NotVerified) <==>
              customDomain != "" && exists h :: Canonical(h) && Spells(Trim(customDomain), h) && !Covered(p, h))
  {
    match spec
    case Http(subdomain, customDomain) =>
      if customDomain != "" {
        UnverifiedDomain(p, base, generated, subdomain, customDomain);
      } else if subdomain == "" {
        DrawnResolves(p, base, generated, "");
      } else {
        ReservedLabel(p, base, generated, subdomain);
      }
    case _ =>
  }

  lemma ReservedLabel(p: Principal, base: string, generated: string, subdomain: string)
    requires subdomain != ""
    ensures
      var r := ResolveHttp(p, base, generated, subdomain, "");
      && (r == Failure(Reserved) <==>
            exists l :: LowersTo(Trim(subdomain), l) && IsLabel(l) && ReservedName(l) && !Granted(p, l))
      && r != Failure(NotVerified)
  {
    var l := Lower(Trim(subdomain));
    LowersIsLower(Trim(subdomain), l);
    NamedResolves(p, base, generated, subdomain, l, "");
    forall l' | LowersTo(Trim(subdomain), l')
      ensures l' == l
    {
      SameLabel(Trim(subdomain), l, l');
    }
  }

  lemma UnverifiedDomain(p: Principal, base: string, generated: string, subdomain: string, customDomain: string)
    requires customDomain != ""
    ensures
      var r := ResolveHttp(p, base, generated, subdomain, customDomain);
      && r != Failure(Reserved)
      && (r == Failure(NotVerified) <==>
            exists h :: Canonical(h) && Spells(Trim(customDomain), h) && !Covered(p, h))
  {
    if NormalizeHost(customDomain).Success? {
      SpelledKey(customDomain, NormalizeHost(customDomain).value);
    }
    if h :| Canonical(h) && Spells(Trim(customDomain), h) && !Covered(p, h) {
      SpelledKey(customDomain, h);
    }
  }

  // ---- registration and ingress --------------------------------------------------------------------------

  lemma DomainIsFound(customDomain: string, h: string, raw: string)
    requires Canonical(h) && Spells(Trim(customDomain), h)
    ensures NormalizeHost(raw) == Success(h) <==> exists h' :: Canonical(h') && Spells(Trim(customDomain), h') && Spells(Trim(raw), h')
  {
    SpelledKey(raw, h);
    SpelledKey(customDomain, h);
    forall h' | Canonical(h') && Spells(Trim(customDomain), h')
      ensures h' == h
    {
      SpelledKey(customDomain, h');
    }
  }

  lemma LabelIsFound(base: string, subdomain: string, generated: string, l: string, raw: string)
    requires LabelAsked(subdomain, generated, l) && IsLabel(l)
    requires NormalizeHost(base).Success? && |l + "." + NormalizeHost(base).value| <= MAX_HOST
    ensures
      var b := NormalizeHost(base).value;
      NormalizeHost(raw) == Success(l + "." + b) <==>
        ':' !in b && exists l' :: LabelAsked(subdomain, generated, l') && Spells(Trim(raw), l' + "." + b)
  {
    var b := NormalizeHost(base).value;
    SpelledKey(raw, l + "." + b);
    KeyIsCanonical(base, b);
    JoinedShape(l, b);
    forall l' | LabelAsked(subdomain, generated, l')
      ensures l' == l
    {
      if subdomain != "" {
        SameLabel(Trim(subdomain), l, l');
      }
    }
  }

  /** A host key is stored as the very string that the ingress looks up, and what the ingress makes of a
      request's host is that string if and only if the host spells what was registered: the custom domain,
      or the label, a dot and the base's key, unless that has a colon. */
  lemma RegisteredIsFound(p: Principal, base: string, generated: string, subdomain: string, customDomain: string, key: RoutingKey, raw: string)
    requires Generated(generated) && Resolve(p, base, generated, Http(subdomain, customDomain)) == Success(key)
    ensures NormalizeHost(raw) == Success(StorageKey(key)) <==> FoundBy(base, subdomain, customDomain, generated, raw)
  {
    ResolvedHost(p, base, generated, subdomain, customDomain, key.host);
    if customDomain != "" {
      DomainIsFound(customDomain, key.host, raw);
    } else {
      var l :| LabelAsked(subdomain, generated, l) && PermittedLabel(p, base, key.host, l);
      LabelIsFound(base, subdomain, generated, l, raw);
    }
  }

  /** The host of a public request spells what the request for a tunnel asked for. */
  ghost predicate FoundBy(base: string, subdomain: string, customDomain: string, generated: string, host: string) {
    if customDomain != "" then exists h :: Canonical(h) && Spells(Trim(customDomain), h) && Spells(Trim(host), h)
    else
      && NormalizeHost(base).Success? && ':' !in NormalizeHost(base).value
      && exists l :: LabelAsked(subdomain, generated, l) && Spells(Trim(host), l + "." + NormalizeHost(base).value)
  }

  lemma ResolvedIsPermitted(p: Principal, base: string, generated: string, spec: TunnelSpec)
    requires Generated(generated) && Resolve(p, base, generated, spec).Success?
    ensures Permitted(p, base, Resolve(p, base, generated, spec).value)
  {
    match spec
    case Http(subdomain, customDomain) =>
      ResolvedHost(p, base, generated, subdomain, customDomain, Resolve(p, base, generated, spec).value.host);
    case _ => RefusedRequests(p, base, generated, spec);
  }

  lemma LabelResolves(p: Principal, base: string, h: string, l: string, generated: string)
    requires PermittedLabel(p, base, h, l)
    ensures ResolveHttp(p, base, generated, l, "") == Success(Host(h))
  {
    MayExactly(p, l);
    LabelIsAccepted(l);
    LabelHost(l, base, h);
  }

  lemma DomainResolves(p: Principal, base: string, h: string, generated: string) returns (raw: string)
    requires Canonical(h) && MayUseCustomDomain(p, h)
    ensures ResolveHttp(p, base, generated, "", raw) == Success(Host(h))
  {
    RangeIsCanonical(h);
    raw :| NormalizeHost(raw) == Success(h);
    assert Trim("") == "";
  }

  lemma PermittedIsResolved(p: Principal, base: string, key: RoutingKey, generated: string) returns (spec: TunnelSpec)
    requires Permitted(p, base, key)
    ensures Resolve(p, base, generated, spec) == Success(key)
  {
    match key
    case TcpPort(port) => spec := Tcp(port);
    case Host(h) =>
      if l :| PermittedLabel(p, base, h, l) {
        LabelResolves(p, base, h, l, generated);
        spec := Http(l, "");
      } else {
        var raw := DomainResolves(p, base, h, generated);
        spec := Http("", raw);
      }
  }

  /** A key can be registered exactly when it is permitted: some request resolves to it if and only
      if it is an allowed child of the base, a custom domain the account may use, or a TCP port. */
  lemma RegistrableExactly(p: Principal, base: string, key: RoutingKey)
    ensures
      (exists spec, generated :: Generated(generated) && Resolve(p, base, generated, spec) == Success(key))
      <==> Permitted(p, base, key)
  {
    if exists spec, generated :: Generated(generated) && Resolve(p, base, generated, spec) == Success(key) {
      var spec, generated :| Generated(generated) && Resolve(p, base, generated, spec) == Success(key);
      ResolvedIsPermitted(p, base, generated, spec);
    }
    if Permitted(p, base, key) {
      var generated := "aaaaaaaaaaaa";
      var spec := PermittedIsResolved(p, base, key, generated);
      assert Generated(generated);
    }
  }

  // ---- keys that hold a tab ------------------------------------------------------------------------------

  lemma LabelHasNoTab(l: string)
    requires LabelChars(l)
    ensures '\t' !in l + "."
  {
  }

  lemma InParts(a: string, b: string, c: char)
    ensures c in a + b <==> c in a || c in b
  {
  }

  /** Under the base: a label adds no tab to the base's key. */
  lemma LabelKeyTabs(p: Principal, base: string, h: string, l: string)
    requires PermittedLabel(p, base, h, l)
    ensures '\t' in h <==> '\t' in NormalizeHost(base).value
  {
    LabelHasNoTab(l);
    InParts(l + ".", NormalizeHost(base).value, '\t');
  }

  /** Under an exact entry: the tabs are those of the entry. */
  lemma ExactKeyTabs(allowed: string, h: string)
    requires !("*." <= allowed) && EntryCovers(allowed, h)
    ensures '\t' in h <==> '\t' in allowed
  {
    LowerKeeps(allowed, '\t');
    LowerKeeps(h, '\t');
  }

  /** Under a wildcard: those of the suffix and whatever the request puts below it. */
  lemma WildcardKeyTabs(allowed: string, below: string)
    requires "*." <= allowed && below != ""
    ensures EntryCovers(allowed, below + "." + allowed[2..])
    ensures '\t' in below + "." + allowed[2..] <==> '\t' in below || '\t' in allowed[2..]
  {
    CoversExactly(allowed, below + "." + allowed[2..]);
    InParts(below + ".", allowed[2..], '\t');
    InParts(below, ".", '\t');
  }

  lemma PortHasNoTab(port: nat)
    ensures '\t' !in StorageKey(TcpPort(port))
  {
    DecimalDigits(port);
    InParts("tcp:", Decimal(port), '\t');
  }

  /** The base's key holds a tab and leaves room for a label. */
  predicate TabbedBase(base: string) {
    match NormalizeHost(base)
    case Failure(_) => false
    case Success(b) => '\t' in b && |b| + 2 <= MAX_HOST
  }

  /** The entry covers a key with a tab: an exact one that is such a key itself, up to case, or a
      wildcard under which the shortest such name is a key. */
  predicate TabbedEntry(allowed: string) {
    if "*." <= allowed then
      var suffix := allowed[2..];
      || Canonical("a\t." + suffix) || Canonical("[\t." + suffix)
      || ('\t' in suffix && (Canonical("a." + suffix) || Canonical("[." + suffix)))
    else '\t' in allowed && Canonical(Lower(allowed))
  }

  /** A canonical name below a suffix stays canonical when what is below is replaced by something
      no longer of the same kind. */
  lemma ReplaceBelow(below: string, suffix: string, other: string)
    requires below != "" && Canonical(below + "." + suffix) && 1 <= |other| <= |below|
    requires KeyLetters(other) && !IsWhitespace(other[0])
    requires ':' !in other && ']' !in other && (Bracketed(other) <==> Bracketed(below))
    ensures Canonical(other + "." + suffix)
  {
    var h, h' := below + "." + suffix, other + "." + suffix;
    SuffixParts(below, suffix);
    JoinLetters(other, suffix);
    assert h'[0] == other[0] && h[0] == below[0];
    SuffixNeeded(below, suffix);
    assert h'[|h'| - 1] == suffix[|suffix| - 1] == h[|h| - 1];
    if Bracketed(h) {
      BracketAtEnd(below + ".", suffix);
      FirstAfter(other + ".", suffix, ']');
    } else {
      InParts(below + ".", suffix, ':');
      InParts(other + ".", suffix, ':');
      InParts(other, ".", ':');
    }
  }

  lemma SuffixNeeded(below: string, suffix: string)
    requires Canonical(below + "." + suffix)
    ensures suffix != ""
  {
    var h := below + "." + suffix;
    var last := h[|h| - 1];
    assert suffix == "" ==> last == '.';
  }

  lemma SuffixParts(below: string, suffix: string)
    requires KeyLetters(below + "." + suffix)
    ensures KeyLetters(suffix)
  {
    var h := below + "." + suffix;
    assert forall i | 0 <= i < |suffix| :: suffix[i] == h[|below| + 1 + i];
  }

  lemma JoinLetters(a: string, b: string)
    requires KeyLetters(a) && KeyLetters(b)
    ensures KeyLetters(a + "." + b)
  {
  }

  lemma BracketAtEnd(head: string, suffix: string)
    requires suffix != "" && Until(head + suffix, ']') == |head + suffix| - 1
    ensures Until(suffix, ']') == |suffix| - 1
  {
    var h := head + suffix;
    assert h[..|h| - 1] == head + suffix[..|suffix| - 1];
    assert ']' !in suffix[..|suffix| - 1] by {
      InParts(head, suffix[..|suffix| - 1], ']');
    }
    assert forall j | 0 <= j < |suffix| - 1 :: suffix[j] != ']' by {
      assert forall j | 0 <= j < |suffix| - 1 :: suffix[..|suffix| - 1][j] == suffix[j];
    }
    assert h[|h| - 1] == ']';
    FirstIsFirst(suffix, ']', |suffix| - 1);
  }

  lemma FirstAfter(head: string, suffix: string, c: char)
    requires c !in head && Until(suffix, c) < |suffix|
    ensures Until(head + suffix, c) == |head| + Until(suffix, c)
  {
    var h, n := head + suffix, Until(suffix, c);
    assert forall j | 0 <= j < |head| + n :: h[j] != c by {
      assert forall j | 0 <= j < n :: suffix[..n][j] == suffix[j];
    }
    FirstIsFirst(h, c, |head| + n);
  }

  lemma TabNotFirst(below: string)
    requires '\t' in below && !IsWhitespace(below[0])
    ensures |below| >= 2
  {
    var i :| 0 <= i < |below| && below[i] == '\t';
    assert i != 0;
  }

  /** The shortest thing of the same kind below a wildcard, with a tab when the suffix has none. */
  function Shortest(below: string, suffix: string): string
    requires below != ""
  {
    if Bracketed(below) then (if '\t' in suffix then "[" else "[\t")
    else (if '\t' in suffix then "a" else "a\t")
  }

  lemma WildcardCoversTab(below: string, suffix: string)
    requires below != "" && Canonical(below + "." + suffix) && ('\t' in below || '\t' in suffix)
    ensures Canonical(Shortest(below, suffix) + "." + suffix)
  {
    assert (below + "." + suffix)[0] == below[0];
    if '\t' !in suffix {
      TabNotFirst(below);
    }
    ReplaceBelow(below, suffix, Shortest(below, suffix));
  }

  lemma ShortestCounts(below: string, suffix: string)
    requires below != "" && Canonical(Shortest(below, suffix) + "." + suffix)
    ensures
      || Canonical("a\t." + suffix) || Canonical("[\t." + suffix)
      || ('\t' in suffix && (Canonical("a." + suffix) || Canonical("[." + suffix)))
  {
    assert "a\t" + "." == "a\t." && "[\t" + "." == "[\t." && "a" + "." == "a." && "[" + "." == "[.";
  }

  lemma EntryCoversTab(allowed: string, h: string)
    requires Canonical(h) && EntryCovers(allowed, h) && '\t' in h
    ensures TabbedEntry(allowed)
  {
    if "*." <= allowed {
      CoversExactly(allowed, h);
      var suffix := allowed[2..];
      var below :| below != "" && h == below + "." + suffix;
      WildcardKeyTabs(allowed, below);
      WildcardCoversTab(below, suffix);
      ShortestCounts(below, suffix);
    } else {
      ExactKeyTabs(allowed, h);
      assert Lower(allowed) == h;
    }
  }

  lemma TabbedEntryCovers(allowed: string) returns (h: string)
    requires TabbedEntry(allowed)
    ensures Canonical(h) && EntryCovers(allowed, h) && '\t' in h
  {
    if "*." <= allowed {
      var suffix := allowed[2..];
      var below :=
        if Canonical("a\t." + suffix) then "a\t"
        else if Canonical("[\t." + suffix) then "[\t"
        else if Canonical("a." + suffix) then "a"
        else "[";
      h := below + "." + suffix;
      WildcardKeyTabs(allowed, below);
      assert "a\t" + "." == "a\t." && "[\t" + "." == "[\t." && "a" + "." == "a." && "[" + "." == "[.";
    } else {
      h := Lower(allowed);
      LowerTwice(allowed);
      LowerKeeps(allowed, '\t');
    }
  }

  lemma ShortLabelIsFree()
    ensures IsLabel("a") && !ReservedName("a")
  {
    forall w | w in RESERVED_NAMES
      ensures !SameLetters(w, "a")
    {
      assert |w| > 1;
    }
  }

  /** A principal can register a key that holds a tab exactly when the base's key does, with room for
      a label, or one of the account's domains covers such a key. */
  lemma TabbedKeysExactly(p: Principal, base: string)
    ensures (exists key :: Permitted(p, base, key) && '\t' in StorageKey(key))
      <==> TabbedBase(base) || exists i | 0 <= i < |p.customDomains| :: TabbedEntry(p.customDomains[i])
  {
    if exists key :: Permitted(p, base, key) && '\t' in StorageKey(key) {
      var key :| Permitted(p, base, key) && '\t' in StorageKey(key);
      TabbedKeyNeeds(p, base, key);
    }
    if TabbedBase(base) {
      var b := NormalizeHost(base).value;
      ShortLabelIsFree();
      assert PermittedLabel(p, base, "a" + "." + b, "a");
      LabelKeyTabs(p, base, "a" + "." + b, "a");
      assert Permitted(p, base, Host("a" + "." + b)) && '\t' in StorageKey(Host("a" + "." + b));
    } else if i :| 0 <= i < |p.customDomains| && TabbedEntry(p.customDomains[i]) {
      var h := TabbedEntryCovers(p.customDomains[i]);
      assert Permitted(p, base, Host(h)) && '\t' in StorageKey(Host(h));
    }
  }

  lemma TabbedKeyNeeds(p: Principal, base: string, key: RoutingKey)
    requires Permitted(p, base, key) && '\t' in StorageKey(key)
    ensures TabbedBase(base) || exists i | 0 <= i < |p.customDomains| :: TabbedEntry(p.customDomains[i])
  {
    match key
    case TcpPort(port) => PortHasNoTab(port);
    case Host(h) =>
      if l :| PermittedLabel(p, base, h, l) {
        LabelKeyTabs(p, base, h, l);
      } else {
        var i :| 0 <= i < |p.customDomains| && EntryCovers(p.customDomains[i], h);
        EntryCoversTab(p.customDomains[i], h);
      }
  }

  lemma ShortestAdmitsTab(allowed: string, suffix: string, k: string)
    requires "*." <= allowed && suffix == allowed[2..] && k == "a\t." + suffix && Canonical(k)
    ensures TabbedEntry(allowed) && EntryCovers(allowed, k)
  {
    assert "a\t" + "." + suffix == k;
    WildcardKeyTabs(allowed, "a\t");
  }

  lemma TabbedNameIsKey(k: string)
    requires k == "a\t.b"
    ensures Canonical(k) && NormalizeHost(k) == Success(k)
  {
    FixedPoint(k);
  }

  /** Under any wildcard that covers ordinary names of two characters and more, such a key can be
      registered: inner tabs survive canonicalisation. */
  lemma WildcardAdmitsTab()
    ensures TabbedEntry("*.b") && EntryCovers("*.b", "a\t.b") && NormalizeHost("a\t.b") == Success("a\t.b")
  {
    TabbedNameIsKey("a\t.b");
    ShortestAdmitsTab("*.b", "b", "a\t.b");
  }
}
