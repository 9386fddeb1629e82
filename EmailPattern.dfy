/**
 * The address pattern of the email field's validator,
 *
 *   local "@" domain
 *   local  = atom ("." atom)*  |  '"' any+ '"'
 *   domain = "[" d{1,3} "." d{1,3} "." d{1,3} "." d{1,3} "]"  |  (label ".")+ tld
 *   atom   = one or more characters other than < > ( ) [ ] \ . , ; : @ " and white space
 *   label  = one or more of a-z A-Z 0-9 -
 *   tld    = two or more of a-z A-Z
 *
 * given twice: as a grammar (ghost predicates that say which decompositions
 * of the address exist) and as a recognizer that finds the decomposition
 * directly (the last "@" separates local part and domain; dots separate the
 * atoms and labels). The two are proved to accept the same strings, and the
 * recognizer is proved insensitive to letter case, with the Kelvin sign
 * U+212A counting as the letter k it lowers to.
 */
module EmailPattern {
  import opened JsValues
  import opened Sequences

  // ---------------------------------------------------------------------
  // Character classes
  // ---------------------------------------------------------------------

  /** What `.` in a regular expression does not match. */
  predicate IsLineTerminator(c: char) {
    c == '\n' || c == '\r' || c == '\U{2028}' || c == '\U{2029}'
  }

  /** `[^<>()\[\]\\.,;:\s@"]` */
  predicate IsAtomChar(c: char) {
    !IsJsWhitespace(c) && c !in "<>()[]\\.,;:@\""
  }

  predicate IsAsciiLetter(c: char) {
    'a' <= c <= 'z' || 'A' <= c <= 'Z'
  }

  /** `[a-zA-Z\-0-9]` */
  predicate IsHostChar(c: char) {
    IsAsciiLetter(c) || IsDecimalDigit(c) || c == '-'
  }

  predicate IsAtom(s: string) {
    |s| >= 1 && forall i :: 0 <= i < |s| ==> IsAtomChar(s[i])
  }

  predicate IsHostLabel(s: string) {
    |s| >= 1 && forall i :: 0 <= i < |s| ==> IsHostChar(s[i])
  }

  predicate IsTld(s: string) {
    |s| >= 2 && forall i :: 0 <= i < |s| ==> IsAsciiLetter(s[i])
  }

  /** `[0-9]{1,3}` */
  predicate IsDigitGroup(s: string) {
    1 <= |s| <= 3 && forall i :: 0 <= i < |s| ==> IsDecimalDigit(s[i])
  }

  // ---------------------------------------------------------------------
  // The recognizer
  // ---------------------------------------------------------------------

  predicate IsDotAtom(s: string) {
    var parts := Split(s, '.');
    forall i :: 0 <= i < |parts| ==> IsAtom(parts[i])
  }

  predicate IsQuoted(s: string) {
    |s| >= 3 && s[0] == '"' && s[|s| - 1] == '"' && forall i :: 1 <= i < |s| - 1 ==> !IsLineTerminator(s[i])
  }

  predicate IsLocalPart(s: string) {
    IsDotAtom(s) || IsQuoted(s)
  }

  predicate IsBracketQuad(d: string) {
    |d| >= 2 && d[0] == '[' && d[|d| - 1] == ']' &&
    var parts := Split(d[1..|d| - 1], '.');
    |parts| == 4 && forall i :: 0 <= i < 4 ==> IsDigitGroup(parts[i])
  }

  predicate IsHostName(d: string) {
    var parts := Split(d, '.');
    |parts| >= 2 && (forall i :: 0 <= i < |parts| - 1 ==> IsHostLabel(parts[i])) && IsTld(parts[|parts| - 1])
  }

  predicate IsDomain(d: string) {
    IsBracketQuad(d) || IsHostName(d)
  }

  /** The pattern test: no domain contains "@", so the last "@" is the separator. */
  predicate IsEmail(s: string) {
    var at := LastIndexOf(s, '@');
    at >= 0 && IsLocalPart(s[..at]) && IsDomain(s[at + 1..])
  }

  // ---------------------------------------------------------------------
  // The grammar
  // ---------------------------------------------------------------------

  function Quote(body: string): string {
    ['"'] + body + ['"']
  }

  function Bracketed(a: string, b: string, c: string, d: string): string {
    "[" + Join([a, b, c, d], '.') + "]"
  }

  function HostOf(labels: seq<string>, tld: string): string {
    Join(labels + [tld], '.')
  }

  function Address(local: string, domain: string): string {
    local + "@" + domain
  }

  ghost predicate DotAtomG(s: string) {
    exists atoms: seq<string> :: |atoms| >= 1 && (forall i :: 0 <= i < |atoms| ==> IsAtom(atoms[i])) && s == Join(atoms, '.')
  }

  ghost predicate QuotedG(s: string) {
    exists body: string :: |body| >= 1 && (forall i :: 0 <= i < |body| ==> !IsLineTerminator(body[i])) && s == Quote(body)
  }

  ghost predicate BracketQuadG(d: string) {
    exists a, b, c, e ::
      IsDigitGroup(a) && IsDigitGroup(b) && IsDigitGroup(c) && IsDigitGroup(e) && d == Bracketed(a, b, c, e)
  }

  ghost predicate HostNameG(d: string) {
    exists labels, tld ::
      |labels| >= 1 && (forall i :: 0 <= i < |labels| ==> IsHostLabel(labels[i])) && IsTld(tld) && d == HostOf(labels, tld)
  }

  ghost predicate LocalG(s: string) {
    DotAtomG(s) || QuotedG(s)
  }

  ghost predicate DomainG(d: string) {
    BracketQuadG(d) || HostNameG(d)
  }

  ghost predicate EmailG(s: string) {
    exists local, domain :: LocalG(local) && DomainG(domain) && s == Address(local, domain)
  }

  // ---------------------------------------------------------------------
  // Recognizer and grammar agree
  // ---------------------------------------------------------------------

  /** Joining pieces that avoid a character, with a different separator, avoids it too. */
  lemma {:induction false} JoinAvoids(parts: seq<string>, sep: char, c: char)
    requires |parts| >= 1 && c != sep
    requires forall i :: 0 <= i < |parts| ==> c !in parts[i]
    ensures c !in Join(parts, sep)
  {
    if |parts| > 1 {
      JoinAvoids(parts[1..], sep, c);
    }
  }

  /** The last occurrence of c in `a + c + b`, when b has none, is the one between them. */
  lemma LastIndexOfSeparator(a: string, c: char, b: string)
    requires c !in b
    ensures LastIndexOf(a + [c] + b, c) == |a|
  {
    var s := a + [c] + b;
    assert s[|a|] == c;
    assert s[|a| + 1..] == b;
  }

  lemma DotAtomAgrees(s: string)
    ensures IsDotAtom(s) <==> DotAtomG(s)
  {
    if IsDotAtom(s) {
      JoinSplit(s, '.');
      assert |Split(s, '.')| >= 1;
    }
    if DotAtomG(s) {
      var atoms :| |atoms| >= 1 && (forall i :: 0 <= i < |atoms| ==> IsAtom(atoms[i])) && s == Join(atoms, '.');
      forall i | 0 <= i < |atoms|
        ensures '.' !in atoms[i]
      {
        assert !IsAtomChar('.');
      }
      SplitJoin(atoms, '.');
    }
  }

  lemma QuotedAgrees(s: string)
    ensures IsQuoted(s) <==> QuotedG(s)
  {
    if IsQuoted(s) {
      var body := s[1..|s| - 1];
      assert s == Quote(body);
      assert forall i :: 0 <= i < |body| ==> body[i] == s[i + 1];
    }
    if QuotedG(s) {
      var body :| |body| >= 1 && (forall i :: 0 <= i < |body| ==> !IsLineTerminator(body[i])) && s == Quote(body);
      assert forall i :: 1 <= i < |s| - 1 ==> s[i] == body[i - 1];
    }
  }

  lemma BracketQuadAgrees(d: string)
    ensures IsBracketQuad(d) <==> BracketQuadG(d)
  {
    if IsBracketQuad(d) {
      var inner := d[1..|d| - 1];
      var parts := Split(inner, '.');
      JoinSplit(inner, '.');
      assert parts == [parts[0], parts[1], parts[2], parts[3]];
      assert d == "[" + inner + "]";
      assert d == Bracketed(parts[0], parts[1], parts[2], parts[3]);
    }
    if BracketQuadG(d) {
      var a, b, c, e :| IsDigitGroup(a) && IsDigitGroup(b) && IsDigitGroup(c) && IsDigitGroup(e) && d == Bracketed(a, b, c, e);
      var groups := [a, b, c, e];
      forall i | 0 <= i < 4
        ensures '.' !in groups[i]
      {
        assert IsDigitGroup(groups[i]);
      }
      SplitJoin(groups, '.');
      assert d[1..|d| - 1] == Join(groups, '.');
    }
  }

  lemma HostNameAgrees(d: string)
    ensures IsHostName(d) <==> HostNameG(d)
  {
    if IsHostName(d) {
      HostNameSound(d);
    }
    if HostNameG(d) {
      var labels, tld :| |labels| >= 1 && (forall i :: 0 <= i < |labels| ==> IsHostLabel(labels[i])) && IsTld(tld) && d == HostOf(labels, tld);
      HostNameComplete(labels, tld);
    }
  }

  lemma HostNameSound(d: string)
    requires IsHostName(d)
    ensures HostNameG(d)
  {
    var parts := Split(d, '.');
    JoinSplit(d, '.');
    var labels, tld := parts[..|parts| - 1], parts[|parts| - 1];
    assert labels + [tld] == parts;
    assert forall i :: 0 <= i < |labels| ==> labels[i] == parts[i];
    assert d == HostOf(labels, tld);
  }

  lemma HostNameComplete(labels: seq<string>, tld: string)
    requires |labels| >= 1 && (forall i :: 0 <= i < |labels| ==> IsHostLabel(labels[i])) && IsTld(tld)
    ensures IsHostName(HostOf(labels, tld))
  {
    var parts := labels + [tld];
    forall i | 0 <= i < |parts|
      ensures '.' !in parts[i]
    {
      if i < |labels| {
        assert parts[i] == labels[i] && IsHostLabel(labels[i]);
      } else {
        assert parts[i] == tld;
      }
    }
    SplitJoin(parts, '.');
    assert forall i :: 0 <= i < |parts| - 1 ==> parts[i] == labels[i];
  }

  /** A domain never contains "@". */
  lemma DomainHasNoAt(d: string)
    requires DomainG(d)
    ensures '@' !in d
  {
    if BracketQuadG(d) {
      var a, b, c, e :| IsDigitGroup(a) && IsDigitGroup(b) && IsDigitGroup(c) && IsDigitGroup(e) && d == Bracketed(a, b, c, e);
      var groups := [a, b, c, e];
      forall i | 0 <= i < 4
        ensures '@' !in groups[i]
      {
        assert IsDigitGroup(groups[i]);
      }
      JoinAvoids(groups, '.', '@');
    } else {
      var labels, tld :| |labels| >= 1 && (forall i :: 0 <= i < |labels| ==> IsHostLabel(labels[i])) && IsTld(tld) && d == HostOf(labels, tld);
      var parts := labels + [tld];
      forall i | 0 <= i < |parts|
        ensures '@' !in parts[i]
      {
        if i < |labels| {
          assert parts[i] == labels[i] && IsHostLabel(labels[i]);
        } else {
          assert parts[i] == tld;
        }
      }
      JoinAvoids(parts, '.', '@');
    }
  }

  lemma LocalAgrees(s: string)
    ensures IsLocalPart(s) <==> LocalG(s)
  {
    DotAtomAgrees(s);
    QuotedAgrees(s);
  }

  lemma DomainAgrees(d: string)
    ensures IsDomain(d) <==> DomainG(d)
  {
    BracketQuadAgrees(d);
    HostNameAgrees(d);
  }

  /** The recognizer accepts exactly the addresses of the grammar. */
  lemma RecognizerMatchesGrammar(s: string)
    ensures IsEmail(s) <==> EmailG(s)
  {
    if IsEmail(s) {
      RecognizerSound(s);
    }
    if EmailG(s) {
      var local, domain :| LocalG(local) && DomainG(domain) && s == Address(local, domain);
      RecognizerComplete(local, domain);
    }
  }

  lemma RecognizerSound(s: string)
    requires IsEmail(s)
    ensures EmailG(s)
  {
    var at := LastIndexOf(s, '@');
    var local, domain := s[..at], s[at + 1..];
    assert s == Address(local, domain);
    LocalAgrees(local);
    DomainAgrees(domain);
  }

  /** When the domain holds no "@", the separator is the last "@" of the address. */
  lemma AddressSplits(local: string, domain: string)
    requires '@' !in domain
    ensures LastIndexOf(Address(local, domain), '@') == |local|
    ensures Address(local, domain)[..|local|] == local
    ensures Address(local, domain)[|local| + 1..] == domain
  {
    var s := Address(local, domain);
    assert s == local + ['@'] + domain;
    LastIndexOfSeparator(local, '@', domain);
  }

  lemma RecognizerComplete(local: string, domain: string)
    requires LocalG(local) && DomainG(domain)
    ensures IsEmail(Address(local, domain))
  {
    DomainHasNoAt(domain);
    AddressSplits(local, domain);
    LocalAgrees(local);
    DomainAgrees(domain);
  }

  // ---------------------------------------------------------------------
  // Letter case
  // ---------------------------------------------------------------------

  /** U+212A KELVIN SIGN: the one character outside A-Z whose lower case is a single ASCII letter, `k`. */
  const KelvinSign: char := '\U{212A}'

  predicate NoKelvinSign(s: string) {
    KelvinSign !in s
  }

  /**
   * `toLowerCase` on one character, for the characters whose lower case is
   * an ASCII letter: A-Z and the Kelvin sign. Other characters are kept.
   */
  function LowerChar(c: char): (r: char)
    ensures !('A' <= r <= 'Z') && r != KelvinSign
    ensures !IsAsciiLetter(c) && c != KelvinSign ==> r == c
    ensures IsAsciiLetter(c) || c == KelvinSign ==> IsAsciiLetter(r)
    ensures c == KelvinSign ==> r == 'k'
  {
    if 'A' <= c <= 'Z' then (c as int + 32) as char
    else if c == KelvinSign then 'k'
    else c
  }

  /** `s.toLowerCase()`: every character lowered, the length kept. */
  function Lower(s: string): (r: string)
    ensures |r| == |s|
    ensures forall i :: 0 <= i < |s| ==> r[i] == LowerChar(s[i])
  {
    seq(|s|, i requires 0 <= i < |s| => LowerChar(s[i]))
  }

  function LowerAll(parts: seq<string>): (r: seq<string>)
    ensures |r| == |parts|
    ensures forall i :: 0 <= i < |parts| ==> r[i] == Lower(parts[i])
  {
    seq(|parts|, i requires 0 <= i < |parts| => Lower(parts[i]))
  }

  /** Lowering twice is lowering once. */
  lemma LowerIdempotent(s: string)
    ensures Lower(Lower(s)) == Lower(s)
  {
    assert forall i :: 0 <= i < |s| ==> LowerChar(LowerChar(s[i])) == LowerChar(s[i]);
  }

  /**
   * Each character class of the pattern contains a character exactly when
   * it contains its lowered form, except that the Kelvin sign joins the
   * letters once lowered.
   */
  lemma LowerKeepsClasses(c: char)
    ensures IsAtomChar(LowerChar(c)) == IsAtomChar(c)
    ensures c != KelvinSign ==> IsHostChar(LowerChar(c)) == IsHostChar(c)
    ensures c != KelvinSign ==> IsAsciiLetter(LowerChar(c)) == IsAsciiLetter(c)
    ensures IsDecimalDigit(LowerChar(c)) == IsDecimalDigit(c)
    ensures IsLineTerminator(LowerChar(c)) == IsLineTerminator(c)
    ensures forall x :: !IsAsciiLetter(x) && x != KelvinSign ==> (LowerChar(c) == x <==> c == x)
  {
  }

  lemma LowerSlice(s: string, a: int, b: int)
    requires 0 <= a <= b <= |s|
    ensures Lower(s)[a..b] == Lower(s[a..b])
  {
  }

  lemma {:induction false} LowerLastIndexOf(s: string, c: char)
    requires !IsAsciiLetter(c) && c != KelvinSign
    ensures LastIndexOf(Lower(s), c) == LastIndexOf(s, c)
  {
    if s != [] {
      LowerKeepsClasses(s[|s| - 1]);
      LowerSlice(s, 0, |s| - 1);
      LowerLastIndexOf(s[..|s| - 1], c);
    }
  }

  lemma LowerCons(ch: char, p: string)
    ensures Lower([ch] + p) == [LowerChar(ch)] + Lower(p)
  {
  }

  lemma LowerAllCons(first: string, rest: seq<string>)
    ensures LowerAll([first] + rest) == [Lower(first)] + LowerAll(rest)
  {
  }

  lemma {:induction false} LowerSplit(s: string, c: char)
    requires !IsAsciiLetter(c) && c != KelvinSign
    ensures Split(Lower(s), c) == LowerAll(Split(s, c))
  {
    if s != [] {
      var t := Lower(s);
      assert t == [LowerChar(s[0])] + Lower(s[1..]) by {
        assert s == [s[0]] + s[1..];
        LowerCons(s[0], s[1..]);
      }
      assert t[1..] == Lower(s[1..]);
      LowerSplit(s[1..], c);
      var rest := Split(s[1..], c);
      assert (t[0] == c) == (s[0] == c);
      if s[0] == c {
        LowerAllCons("", rest);
      } else {
        assert LowerAll(rest) == [Lower(rest[0])] + LowerAll(rest[1..]) by {
          assert rest == [rest[0]] + rest[1..];
          LowerAllCons(rest[0], rest[1..]);
        }
        LowerCons(s[0], rest[0]);
        LowerAllCons([s[0]] + rest[0], rest[1..]);
      }
    }
  }

  lemma LowerPiece(p: string)
    ensures IsAtom(Lower(p)) == IsAtom(p)
    ensures NoKelvinSign(p) ==> IsHostLabel(Lower(p)) == IsHostLabel(p)
    ensures NoKelvinSign(p) ==> IsTld(Lower(p)) == IsTld(p)
    ensures IsDigitGroup(Lower(p)) == IsDigitGroup(p)
  {
    forall i | 0 <= i < |p| {
      LowerKeepsClasses(p[i]);
    }
  }

  lemma LowerLocalPart(s: string)
    ensures IsLocalPart(Lower(s)) == IsLocalPart(s)
  {
    LowerSplit(s, '.');
    var parts := Split(s, '.');
    forall i | 0 <= i < |parts| {
      LowerPiece(parts[i]);
    }
    forall i | 0 <= i < |s| {
      LowerKeepsClasses(s[i]);
    }
  }

  lemma LowerBracketQuad(d: string)
    ensures IsBracketQuad(Lower(d)) == IsBracketQuad(d)
  {
    if |d| >= 2 {
      LowerKeepsClasses(d[0]);
      LowerKeepsClasses(d[|d| - 1]);
      LowerSlice(d, 1, |d| - 1);
      var inner := d[1..|d| - 1];
      LowerSplit(inner, '.');
      var parts := Split(inner, '.');
      forall i | 0 <= i < |parts| {
        LowerPiece(parts[i]);
      }
    }
  }

  lemma LowerHostName(d: string)
    requires NoKelvinSign(d)
    ensures IsHostName(Lower(d)) == IsHostName(d)
  {
    LowerSplit(d, '.');
    var parts := Split(d, '.');
    var lowered := Split(Lower(d), '.');
    assert lowered == LowerAll(parts);
    SplitPiecesFrom(d, '.');
    forall i | 0 <= i < |parts|
      ensures IsHostLabel(lowered[i]) == IsHostLabel(parts[i])
      ensures IsTld(lowered[i]) == IsTld(parts[i])
    {
      LowerPiece(parts[i]);
    }
  }

  lemma LowerDomain(d: string)
    requires NoKelvinSign(d)
    ensures IsDomain(Lower(d)) == IsDomain(d)
  {
    LowerBracketQuad(d);
    LowerHostName(d);
  }

  lemma LowerParts(s: string, at: int)
    requires 0 <= at < |s| && NoKelvinSign(s)
    ensures IsLocalPart(Lower(s)[..at]) == IsLocalPart(s[..at])
    ensures IsDomain(Lower(s)[at + 1..]) == IsDomain(s[at + 1..])
  {
    assert Lower(s)[..at] == Lower(s[..at]);
    assert Lower(s)[at + 1..] == Lower(s[at + 1..]);
    LowerLocalPart(s[..at]);
    LowerDomain(s[at + 1..]);
  }

  /** Without a Kelvin sign, the pattern cannot tell an address from its lowered form. */
  lemma LowerKeepsVerdict(s: string)
    requires NoKelvinSign(s)
    ensures IsEmail(Lower(s)) == IsEmail(s)
  {
    LowerLastIndexOf(s, '@');
    var at := LastIndexOf(s, '@');
    if at >= 0 {
      LowerParts(s, at);
    }
  }

  /** s with every Kelvin sign written as the letter k. */
  function KelvinAsK(s: string): (r: string)
    ensures |r| == |s| && NoKelvinSign(r)
    ensures forall i :: 0 <= i < |s| ==> r[i] == if s[i] == KelvinSign then 'k' else s[i]
  {
    seq(|s|, i requires 0 <= i < |s| => if s[i] == KelvinSign then 'k' else s[i])
  }

  /**
   * The pattern test on a lowered string ignores letter case: it accepts
   * `s.toLowerCase()` exactly when it accepts s with each Kelvin sign read
   * as k, which is s itself when it has none.
   */
  lemma IsEmailIgnoresCase(s: string)
    ensures IsEmail(Lower(s)) == IsEmail(KelvinAsK(s))
    ensures NoKelvinSign(s) ==> IsEmail(Lower(s)) == IsEmail(s)
  {
    var t := KelvinAsK(s);
    assert Lower(t) == Lower(s);
    LowerKeepsVerdict(t);
    if NoKelvinSign(s) {
      assert t == s;
    }
  }
}
