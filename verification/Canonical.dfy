/** Canonical asset identifiers and the ids derived from them. Addresses, URLs and services are parsed outside. */
module Canonical {
  import opened Base
  import opened Text

  type AssetType = int
  const HOST: AssetType := 1
  const CONTAINER: AssetType := 2
  const SERVICE: AssetType := 3
  const NETWORK: AssetType := 4
  const OTHER: AssetType := 7
  const DOMAIN: AssetType := 8
  const IP_ADDRESS: AssetType := 9
  const URL: AssetType := 10
  const APPLICATION: AssetType := 11

  predicate KnownType(t: AssetType) {
    HOST <= t <= APPLICATION
  }

  // netip.ParseAddr, url.Parse and net.SplitHostPort with their checks, and the host and port of a canonical URL.
  datatype Parsers = Parsers(
    ip: string -> Option<string>, url: string -> Option<string>, service: string -> Option<string>,
    hostPort: string -> (string, string))

  predicate LabelChar(c: char) {
    'a' <= c <= 'z' || '0' <= c <= '9' || c == '-'
  }

  predicate ValidLabel(part: string) {
    && part != "" && |part| <= 63
    && (forall c :: c in part ==> LabelChar(c))
    && part[0] != '-' && part[|part| - 1] != '-'
  }

  // None is ErrCanonicalize.
  function CanonicalDomain(raw: string): Option<string> {
    var lowered := Lower(Trim(raw));
    var s := if lowered != "" && lowered[|lowered| - 1] == '.' then lowered[..|lowered| - 1] else lowered;
    if s == "" || |s| > 253 then None
    else if forall part | part in Split(s, '.') :: ValidLabel(part) then Some(s)
    else None
  }

  function CanonicalHost(raw: string): Option<string> {
    var s := Lower(Trim(raw));
    if s == "" || ' ' in s || '\t' in s || '/' in s then None else Some(s)
  }

  function CanonicalOpaque(raw: string): Option<string> {
    if Trim(raw) == "" then None else Some(Trim(raw))
  }

  function Canonicalize(t: AssetType, raw: string, parsers: Parsers): Option<string> {
    if t == DOMAIN then CanonicalDomain(raw)
    else if t == IP_ADDRESS then parsers.ip(Trim(raw))
    else if t == URL then parsers.url(Trim(raw))
    else if t == HOST then CanonicalHost(raw)
    else if t == SERVICE then parsers.service(Trim(raw))
    else if KnownType(t) then CanonicalOpaque(raw)
    else None
  }

  function IdFor(t: AssetType, canonical: string): string {
    "ast-" + Digest(Decimal(t) + [SEPARATOR] + canonical)
  }

  // ---------------------------------------------------------------------------
  // Idempotence
  // ---------------------------------------------------------------------------

  // Every character is a separator or sits in a part.
  lemma {:induction false} SplitCovers(s: string, sep: char, c: char)
    requires c in s && c != sep
    ensures exists part :: part in Split(s, sep) && c in part
  {
    var rest := Split(s[1..], sep);
    if s[0] == c {
      var head := Split(s, sep)[0];
      assert head == [s[0]] + rest[0];
      assert head in Split(s, sep) && head[0] == c;
    } else {
      assert s == [s[0]] + s[1..];
      SplitCovers(s[1..], sep, c);
      var part :| part in rest && c in part;
      var i :| 0 <= i < |rest| && rest[i] == part;
      if s[0] == sep {
        assert Split(s, sep)[i + 1] == part;
      } else if i == 0 {
        var head := Split(s, sep)[0];
        assert head == [s[0]] + rest[0] && head in Split(s, sep);
      } else {
        assert Split(s, sep)[i] == part;
      }
    }
  }

  // A text that starts or ends with a separator has an empty part there.
  lemma {:induction false} SplitEnds(s: string, sep: char)
    requires s != ""
    ensures s[|s| - 1] == sep ==> "" in Split(s, sep)
    ensures s[0] == sep ==> "" in Split(s, sep)
  {
    var rest := Split(s[1..], sep);
    if s[0] == sep {
      assert Split(s, sep)[0] == "";
    } else if s[|s| - 1] == sep {
      LastPart(s, sep);
    }
  }

  lemma {:induction false} LastPart(s: string, sep: char)
    requires s != "" && s[|s| - 1] == sep
    ensures |Split(s, sep)| >= 2 && Split(s, sep)[|Split(s, sep)| - 1] == ""
  {
    if |s| == 1 {
      assert Split(s[1..], sep) == [""];
    } else {
      LastPart(s[1..], sep);
    }
  }

  lemma DomainChars(raw: string)
    requires CanonicalDomain(raw).Some?
    ensures var s := CanonicalDomain(raw).value;
            && s != "" && |s| <= 253 && s[|s| - 1] != '.'
            && (forall c :: c in s ==> LabelChar(c) || c == '.')
            && (forall part :: part in Split(s, '.') ==> ValidLabel(part))
  {
    var s := CanonicalDomain(raw).value;
    SplitEnds(s, '.');
    assert forall part :: part in Split(s, '.') ==> ValidLabel(part);
    assert !ValidLabel("");
    assert s[|s| - 1] != '.';
    forall c | c in s ensures LabelChar(c) || c == '.' {
      if c != '.' {
        SplitCovers(s, '.', c);
        var part :| part in Split(s, '.') && c in part;
        assert ValidLabel(part);
      }
    }
  }

  lemma LowerFixed(s: string)
    requires forall c :: c in s ==> LabelChar(c) || c == '.'
    ensures Lower(s) == s
  {
    forall i | 0 <= i < |s| ensures LowerChar(s[i]) == s[i] {
      assert s[i] in s;
    }
  }

  lemma DomainIdempotent(raw: string)
    requires CanonicalDomain(raw).Some?
    ensures CanonicalDomain(CanonicalDomain(raw).value) == CanonicalDomain(raw)
  {
    var s := CanonicalDomain(raw).value;
    DomainChars(raw);
    assert s[0] in s && s[|s| - 1] in s;
    TrimFixed(s);
    LowerFixed(s);
  }

  // The trailing dot of a fully qualified name does not make another domain.
  lemma RootDotIgnored(raw: string)
    requires CanonicalDomain(raw).Some?
    ensures CanonicalDomain(CanonicalDomain(raw).value + ".") == CanonicalDomain(raw)
  {
    var s := CanonicalDomain(raw).value;
    DomainChars(raw);
    var dotted := s + ".";
    assert dotted[0] == s[0] && s[0] in s;
    TrimFixed(dotted);
    LowerFixed(dotted);
    assert dotted[..|dotted| - 1] == s;
  }

  // Letter case makes neither another domain nor another host.
  lemma CaseIgnored(raw: string)
    ensures CanonicalDomain(Lower(raw)) == CanonicalDomain(raw) && CanonicalHost(Lower(raw)) == CanonicalHost(raw)
  {
    LowerTrims(raw);
    LowerTrimsRight(TrimLeft(raw));
    LowerKeepsSpace(Trim(raw));
    assert Lower(Trim(Lower(raw))) == Lower(Trim(raw));
  }

  lemma HostIdempotent(raw: string)
    requires CanonicalHost(raw).Some?
    ensures CanonicalHost(CanonicalHost(raw).value) == CanonicalHost(raw)
  {
    var t := Trim(raw);
    TrimTrims(raw);
    LowerKeepsSpace(t);
    TrimFixed(Lower(t));
  }

  lemma OpaqueIdempotent(raw: string)
    requires CanonicalOpaque(raw).Some?
    ensures CanonicalOpaque(CanonicalOpaque(raw).value) == CanonicalOpaque(raw)
  {
    TrimTrims(raw);
    TrimFixed(Trim(raw));
  }

  // Where the outside parsers are not involved, a canonical identifier is its own canonical form.
  lemma CanonicalIdempotent(t: AssetType, raw: string, parsers: Parsers)
    requires t != IP_ADDRESS && t != URL && t != SERVICE && Canonicalize(t, raw, parsers).Some?
    ensures Canonicalize(t, Canonicalize(t, raw, parsers).value, parsers) == Canonicalize(t, raw, parsers)
  {
    if t == DOMAIN {
      DomainIdempotent(raw);
    } else if t == HOST {
      HostIdempotent(raw);
    } else {
      OpaqueIdempotent(raw);
    }
  }

  // ---------------------------------------------------------------------------
  // Identity
  // ---------------------------------------------------------------------------

  // Types never merge, and neither do different identifiers of one type.
  lemma IdForInjective(t: AssetType, a: string, u: AssetType, b: string)
    requires KnownType(t) && KnownType(u) && IdFor(t, a) == IdFor(u, b)
    ensures t == u && a == b
  {
    var x, y := Decimal(t) + [SEPARATOR] + a, Decimal(u) + [SEPARATOR] + b;
    assert IdFor(t, a)[4..] == Digest(x) && IdFor(u, b)[4..] == Digest(y);
    DigestInjective(x, y);
    DecimalDigits(t);
    DecimalDigits(u);
    SplitOnce(Decimal(t), a, Decimal(u), b);
    DecimalInjective(t, u);
  }

  // ---------------------------------------------------------------------------
  // What is accepted
  // ---------------------------------------------------------------------------

  const LETTERS: string := "abcdefghijklmnopqrstuvwxyz"
  const DIGITS: string := "0123456789"

  // A label of a domain name as the name system has it, in lower case.
  ghost predicate IsLabel(part: string) {
    && 1 <= |part| <= 63 && (forall c :: c in part ==> c in LETTERS || c in DIGITS || c == '-')
    && part[0] != '-' && part[|part| - 1] != '-'
  }

  lemma LabelMeans(part: string)
    ensures ValidLabel(part) <==> IsLabel(part)
  {
    forall c ensures LabelChar(c) <==> c in LETTERS || c in DIGITS || c == '-' {
      IsLetter(c);
      IsDigit(c);
    }
  }

  lemma IsLetter(c: char)
    ensures c in LETTERS <==> 'a' <= c <= 'z'
  {
    if 'a' <= c <= 'z' {
      assert LETTERS[c as int - 'a' as int] == c;
    }
  }

  lemma IsDigit(c: char)
    ensures c in DIGITS <==> '0' <= c <= '9'
  {
    if '0' <= c <= '9' {
      assert DIGITS[c as int - '0' as int] == c;
    }
  }

  /** What is a canonical domain: between 1 and 253 characters, the trimmed and lowered text less one final dot, and labels
      joined by dots. Any such text is accepted, as it is. */
  lemma DomainMeans(raw: string, name: string)
    ensures CanonicalDomain(raw) == Some(name) <==>
              && (Lower(Trim(raw)) == name || Lower(Trim(raw)) == name + ".") && 1 <= |name| <= 253
              && name[|name| - 1] != '.' && (forall part :: part in Split(name, '.') ==> IsLabel(part))
  {
    forall part ensures ValidLabel(part) <==> IsLabel(part) {
      LabelMeans(part);
    }
    if CanonicalDomain(raw) == Some(name) {
      DomainChars(raw);
    }
    RootDot(Lower(Trim(raw)), name);
  }

  // A text is a name or a name and a final dot.
  lemma RootDot(text: string, name: string)
    ensures name != "" && name[|name| - 1] != '.' ==>
              var stripped := if text != "" && text[|text| - 1] == '.' then text[..|text| - 1] else text;
              (text == name || text == name + "." <==> name == stripped)
  {
    assert (name + ".")[..|name|] == name;
    assert text != "" ==> text == text[..|text| - 1] + [text[|text| - 1]];
  }

  /** What is a canonical host: the trimmed and lowered text, unless it is empty or has a blank, a tab or a slash inside. */
  lemma HostMeans(raw: string, name: string)
    ensures CanonicalHost(raw) == Some(name) <==>
              name == Lower(Trim(raw)) && name != "" && forall c :: c in name ==> c != ' ' && c != '\t' && c != '/'
  {
  }
}
