/** Strings the way the routing code handles them. */
module Text {

  /** Characters before the first `c`, all of them when there is none. */
  function Until(s: string, c: char): (n: nat)
    ensures n <= |s|
    ensures c !in s[..n]
    ensures n < |s| ==> s[n] == c
  {
    if s == [] || s[0] == c then 0 else
    assert c !in s[1..][..Until(s[1..], c)];
    assert s[..1 + Until(s[1..], c)] == [s[0]] + s[1..][..Until(s[1..], c)];
    1 + Until(s[1..], c)
  }

  lemma UntilFirst(a: string, c: char, rest: string)
    requires c !in a
    ensures Until(a + [c] + rest, c) == |a|
  {
    var s := a + [c] + rest;
    assert s[|a|] == c;
    FirstIsFirst(s, c, |a|);
  }

  lemma {:induction false} FirstIsFirst(s: string, c: char, k: nat)
    requires k < |s| && s[k] == c && forall j | 0 <= j < k :: s[j] != c
    ensures Until(s, c) == k
  {
    if k > 0 {
      FirstIsFirst(s[1..], c, k - 1);
    }
  }

  lemma UntilNone(a: string, c: char)
    requires c !in a
    ensures Until(a, c) == |a|
  {
  }

  // ---- case ----------------------------------------------------------------------------------

  function LowerChar(c: char): char {
    if 'A' <= c <= 'Z' then (c as int + 32) as char else c
  }

  /** `to_ascii_lowercase`. */
  function Lower(s: string): (r: string)
    ensures |r| == |s|
    ensures forall i | 0 <= i < |s| :: Lowered(s[i], r[i])
  {
    seq(|s|, i requires 0 <= i < |s| => LowerChar(s[i]))
  }

  /** `d` is `c`, moved 32 places on when `c` is from 'A' to 'Z'. */
  predicate Lowered(c: char, d: char) {
    d as int == c as int + (if 65 <= c as int <= 90 then 32 else 0)
  }

  predicate NoUpper(s: string) {
    forall i | 0 <= i < |s| :: !(65 <= s[i] as int <= 90)
  }

  /** Strings that differ, letter by letter, in nothing but the case of 'A' to 'Z'. */
  predicate SameLetters(a: string, b: string) {
    |a| == |b| && forall i | 0 <= i < |a| ::
      || a[i] == b[i]
      || (65 <= a[i] as int <= 90 && b[i] as int == a[i] as int + 32)
      || (65 <= b[i] as int <= 90 && a[i] as int == b[i] as int + 32)
  }

  /** What `Lower` leaves alone, and what it makes equal. */
  lemma LowerFixed(s: string)
    ensures Lower(s) == s <==> NoUpper(s)
    ensures NoUpper(Lower(s)) && SameLetters(s, Lower(s))
  {
    if NoUpper(s) {
      assert forall i | 0 <= i < |s| :: Lower(s)[i] == s[i];
    }
    forall i | 0 <= i < |s|
      ensures !(65 <= Lower(s)[i] as int <= 90)
    {
      assert Lowered(s[i], Lower(s)[i]);
    }
  }

  /** `k` is `s` in lower case, letter by letter. */
  predicate LowersTo(s: string, k: string) {
    |s| == |k| && forall i | 0 <= i < |s| :: Lowered(s[i], k[i])
  }

  lemma LowersIsLower(s: string, k: string)
    ensures LowersTo(s, k) <==> Lower(s) == k
  {
    if LowersTo(s, k) {
      assert forall i | 0 <= i < |s| :: Lower(s)[i] == k[i];
    }
  }

  lemma SameIsLetterwise(a: string, b: string)
    ensures SameIgnoringCase(a, b) <==> SameLetters(a, b)
  {
    if SameLetters(a, b) {
      assert forall i | 0 <= i < |a| :: Lower(a)[i] == Lower(b)[i];
    }
    if SameIgnoringCase(a, b) {
      assert |a| == |b|;
      forall i | 0 <= i < |a|
        ensures
          || a[i] == b[i]
          || (65 <= a[i] as int <= 90 && b[i] as int == a[i] as int + 32)
          || (65 <= b[i] as int <= 90 && a[i] as int == b[i] as int + 32)
      {
        assert Lowered(a[i], Lower(a)[i]) && Lowered(b[i], Lower(b)[i]);
      }
    }
  }

  lemma LowerTwice(s: string)
    ensures Lower(Lower(s)) == Lower(s)
  {
    LowerFixed(s);
    LowerFixed(Lower(s));
  }

  lemma LowerParts(a: string, b: string)
    ensures Lower(a + b) == Lower(a) + Lower(b)
  {
    assert forall i | 0 <= i < |a + b| :: Lower(a + b)[i] == (Lower(a) + Lower(b))[i];
  }

  /** `eq_ignore_ascii_case`. */
  predicate SameIgnoringCase(a: string, b: string) {
    Lower(a) == Lower(b)
  }

  predicate Ascii(s: string) {
    forall i | 0 <= i < |s| :: s[i] as int < 128
  }

  lemma AsciiParts(a: string, b: string)
    requires Ascii(a) && Ascii(b)
    ensures Ascii(a + b)
  {
  }

  predicate AllDigits(s: string) {
    forall i | 0 <= i < |s| :: '0' <= s[i] <= '9'
  }

  /** `str::len`, in UTF-8 bytes. */
  function Utf8Length(s: string): nat {
    if s == [] then 0
    else
      var n := s[0] as int;
      (if n < 0x80 then 1 else if n < 0x800 then 2 else if n < 0x1_0000 then 3 else 4) + Utf8Length(s[1..])
  }

  lemma {:induction false} AsciiLength(s: string)
    requires Ascii(s)
    ensures Utf8Length(s) == |s|
  {
    if s != [] {
      AsciiLength(s[1..]);
    }
  }

  // ---- trimming ----------------------------------------------------------------------------------

  /** The Unicode property White_Space. */
  predicate IsWhitespace(c: char) {
    var n := c as int;
    || 0x9 <= n <= 0xD || n == 0x20 || n == 0x85 || n == 0xA0 || n == 0x1680
    || 0x2000 <= n <= 0x200A || n == 0x2028 || n == 0x2029 || n == 0x202F || n == 0x205F || n == 0x3000
  }

  /** Its code points, one by one: PropList of the Unicode Character Database. */
  const WHITE_SPACE: set<int> := {
    0x9, 0xA, 0xB, 0xC, 0xD, 0x20, 0x85, 0xA0, 0x1680, 0x2000, 0x2001, 0x2002, 0x2003, 0x2004, 0x2005, 0x2006, 0x2007,
    0x2008, 0x2009, 0x200A, 0x2028, 0x2029, 0x202F, 0x205F, 0x3000}

  lemma WhitespaceListed(c: char)
    ensures IsWhitespace(c) <==> c as int in WHITE_SPACE
  {
  }

  predicate Blank(s: string) {
    forall i | 0 <= i < |s| :: IsWhitespace(s[i])
  }

  function TrimStart(s: string): (r: string)
    ensures r != [] ==> !IsWhitespace(r[0])
    ensures |r| <= |s| && r == s[|s| - |r|..]
    ensures forall i | 0 <= i < |s| - |r| :: IsWhitespace(s[i])
  {
    if s != [] && IsWhitespace(s[0]) then TrimStart(s[1..]) else s
  }

  function TrimEnd(s: string): (r: string)
    ensures r != [] ==> !IsWhitespace(r[|r| - 1])
    ensures |r| <= |s| && r == s[..|r|]
    ensures forall i | |r| <= i < |s| :: IsWhitespace(s[i])
  {
    if s != [] && IsWhitespace(s[|s| - 1]) then TrimEnd(s[..|s| - 1]) else s
  }

  /** `str::trim`. */
  function Trim(s: string): (r: string)
    ensures |r| <= |s|
    ensures r != [] ==> !IsWhitespace(r[0]) && !IsWhitespace(r[|r| - 1])
  {
    TrimEnd(TrimStart(s))
  }

  /** Nothing but whitespace is trimmed, and all of it at both ends. */
  lemma TrimIsMiddle(s: string) returns (before: string, after: string)
    ensures s == before + Trim(s) + after && Blank(before) && Blank(after)
    ensures Trim(s) != "" ==> !IsWhitespace(Trim(s)[0]) && !IsWhitespace(Trim(s)[|Trim(s)| - 1])
  {
    var middle := TrimStart(s);
    before := StartDropped(s, middle);
    after := EndDropped(middle, TrimEnd(middle));
    JoinedThrice(before, TrimEnd(middle), after);
  }

  lemma JoinedThrice(a: string, b: string, c: string)
    ensures a + (b + c) == a + b + c
  {
  }

  lemma StartDropped(s: string, r: string) returns (before: string)
    requires |r| <= |s| && r == s[|s| - |r|..] && forall i | 0 <= i < |s| - |r| :: IsWhitespace(s[i])
    ensures s == before + r && Blank(before)
  {
    before := s[..|s| - |r|];
  }

  lemma EndDropped(s: string, r: string) returns (after: string)
    requires |r| <= |s| && r == s[..|r|] && forall i | |r| <= i < |s| :: IsWhitespace(s[i])
    ensures s == r + after && Blank(after)
  {
    after := s[|r|..];
    assert forall i | 0 <= i < |after| :: after[i] == s[|r| + i];
  }

  lemma TrimIsIdentity(s: string)
    requires s != [] && !IsWhitespace(s[0])
    ensures Trim(s) == s <==> !IsWhitespace(s[|s| - 1])
  {
    assert TrimStart(s) == s;
  }

  lemma TrimShrinks(s: string)
    requires s != [] && IsWhitespace(s[|s| - 1])
    ensures |Trim(s)| < |s|
  {
    EndTrimmed(TrimStart(s));
    LastKept(s, TrimStart(s));
  }

  lemma LastKept(s: string, r: string)
    requires s != [] && |r| <= |s| && r == s[|s| - |r|..]
    ensures r != [] ==> r[|r| - 1] == s[|s| - 1]
  {
  }

  lemma EndTrimmed(r: string)
    ensures r != [] && IsWhitespace(r[|r| - 1]) ==> |TrimEnd(r)| < |r|
  {
    if r != [] && IsWhitespace(r[|r| - 1]) {
      assert TrimEnd(r) == TrimEnd(r[..|r| - 1]);
    }
  }

  /** `trim_end_matches('.')`. */
  function TrimDots(s: string): (r: string)
    ensures r != [] ==> r[|r| - 1] != '.'
    ensures |r| <= |s| && r == s[..|r|]
    ensures forall i | |r| <= i < |s| :: s[i] == '.'
  {
    if s != [] && s[|s| - 1] == '.' then TrimDots(s[..|s| - 1]) else s
  }

  lemma {:induction false} TrimDotsUnique(s: string, n: nat)
    requires n <= |s| && (n > 0 ==> s[n - 1] != '.')
    requires forall i | n <= i < |s| :: s[i] == '.'
    ensures TrimDots(s) == s[..n]
    decreases |s|
  {
    if n < |s| {
      TrimDotsUnique(s[..|s| - 1], n);
      assert s[..|s| - 1][..n] == s[..n];
    } else {
      assert s[..n] == s;
    }
  }

  /** `strip_suffix`. */
  predicate EndsWith(s: string, suffix: string) {
    |suffix| <= |s| && s[|s| - |suffix|..] == suffix
  }

  lemma EndsWithParts(head: string, suffix: string)
    ensures EndsWith(head + suffix, suffix) && (head + suffix)[..|head|] == head
  {
  }
}
