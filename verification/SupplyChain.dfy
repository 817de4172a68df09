/** Supply-chain policy: the order of versions and the fold of policy dimensions into one verdict. */
module SupplyChain {
  import opened Base
  import opened Text

  // ---------------------------------------------------------------------------
  // Versions
  // ---------------------------------------------------------------------------

  const MAX_INT: int := 0x7FFF_FFFF_FFFF_FFFF

  predicate IsDigits(s: string) {
    s != "" && forall c :: c in s ==> '0' <= c <= '9'
  }

  function DigitOf(c: char): nat {
    if '0' <= c <= '9' then c as int - '0' as int else 0
  }

  function DigitsValue(s: string): nat {
    if s == "" then 0 else 10 * DigitsValue(s[..|s| - 1]) + DigitOf(s[|s| - 1])
  }

  // strconv.Atoi: an optional sign, digits, and the range of a 64-bit int.
  function Atoi(s: string): Option<int> {
    var signed := s != "" && (s[0] == '+' || s[0] == '-');
    var digits := if signed then s[1..] else s;
    if !IsDigits(digits) then None
    else
      var magnitude: int := DigitsValue(digits);
      var n := if signed && s[0] == '-' then 0 - magnitude else magnitude;
      if -MAX_INT - 1 <= n <= MAX_INT then Some(n) else None
  }

  type Version = seq<nat>

  function ParseParts(parts: seq<string>): Option<Version> {
    if parts == [] then Some([])
    else
      var front, n := ParseParts(parts[..|parts| - 1]), Atoi(parts[|parts| - 1]);
      if front.None? || n.None? || n.value < 0 then None else Some(front.value + [n.value])
  }

  // None is a version that cannot be compared.
  function Parse(s: string): Option<Version> {
    if Trim(s) == "" then None else ParseParts(Split(Trim(s), '.'))
  }

  lemma {:induction false} PartsFail(parts: seq<string>, n: nat)
    requires n <= |parts| && ParseParts(parts[..n]).None?
    ensures ParseParts(parts).None?
  {
    if n < |parts| {
      assert parts[..|parts| - 1][..n] == parts[..n];
      PartsFail(parts[..|parts| - 1], n);
    } else {
      assert parts[..n] == parts;
    }
  }

  // The order of versions: the first difference decides, then the length.
  function Compare(h: Version, w: Version): int {
    if h == [] || w == [] then if |h| < |w| then -1 else if |h| > |w| then 1 else 0
    else if h[0] != w[0] then if h[0] < w[0] then -1 else 1
    else Compare(h[1..], w[1..])
  }

  // Smaller: a proper prefix, or smaller at the first difference.
  ghost predicate Precedes(h: Version, w: Version) {
    exists k :: 0 <= k <= |h| && k <= |w| && h[..k] == w[..k]
      && ((k == |h| < |w|) || (k < |h| && k < |w| && h[k] < w[k]))
  }

  lemma {:induction false} CompareMeans(h: Version, w: Version)
    ensures Compare(h, w) in {-1, 0, 1}
    ensures Compare(h, w) == 0 <==> h == w
    ensures Compare(h, w) == -1 <==> Precedes(h, w)
  {
    if h == [] || w == [] {
      if h == [] && w != [] {
        assert h[..0] == w[..0];
      }
    } else if h[0] != w[0] {
      PrecedesHead(h, w);
    } else {
      CompareMeans(h[1..], w[1..]);
      assert h == [h[0]] + h[1..] && w == [w[0]] + w[1..];
      PrecedesTail(h, w);
    }
  }

  lemma PrecedesHead(h: Version, w: Version)
    requires h != [] && w != []
    ensures h[0] < w[0] ==> Precedes(h, w)
    ensures Precedes(h, w) ==> h[0] <= w[0]
  {
    assert h[..0] == w[..0];
    if Precedes(h, w) {
      var k :| 0 <= k <= |h| && k <= |w| && h[..k] == w[..k]
        && ((k == |h| < |w|) || (k < |h| && k < |w| && h[k] < w[k]));
      assert k > 0 ==> h[..k][0] == h[0] && w[..k][0] == w[0];
    }
  }

  lemma PrecedesTail(h: Version, w: Version)
    requires h != [] && w != [] && h[0] == w[0]
    ensures Precedes(h, w) <==> Precedes(h[1..], w[1..])
  {
    if Precedes(h, w) {
      var k :| 0 <= k <= |h| && k <= |w| && h[..k] == w[..k]
        && ((k == |h| < |w|) || (k < |h| && k < |w| && h[k] < w[k]));
      assert k > 0;
      assert h[1..][..k - 1] == h[..k][1..] && w[1..][..k - 1] == w[..k][1..];
    }
    if Precedes(h[1..], w[1..]) {
      var k :| 0 <= k <= |h[1..]| && k <= |w[1..]| && h[1..][..k] == w[1..][..k]
        && ((k == |h[1..]| < |w[1..]|) || (k < |h[1..]| && k < |w[1..]| && h[1..][k] < w[1..][k]));
      assert h[..k + 1] == [h[0]] + h[1..][..k] && w[..k + 1] == [w[0]] + w[1..][..k];
    }
  }

  lemma {:induction false} CompareAntisymmetric(h: Version, w: Version)
    ensures Compare(w, h) == -Compare(h, w)
  {
    if h != [] && w != [] && h[0] == w[0] {
      CompareAntisymmetric(h[1..], w[1..]);
    }
  }

  lemma {:induction false} CompareTransitive(a: Version, b: Version, c: Version)
    requires Compare(a, b) <= 0 && Compare(b, c) <= 0
    ensures Compare(a, c) <= 0
    ensures Compare(a, b) < 0 || Compare(b, c) < 0 ==> Compare(a, c) < 0
  {
    if a != [] && b != [] && c != [] && a[0] == b[0] == c[0] {
      CompareTransitive(a[1..], b[1..], c[1..]);
    }
  }

  method ParseVersion(s: string) returns (r: Option<Version>)
    ensures r == Parse(s)
  {
    var trimmed := Trim(s);
    if trimmed == "" {
      return None;
    }
    var parts := Split(trimmed, '.');
    var out: seq<nat> := [];
    for i := 0 to |parts|
      invariant ParseParts(parts[..i]) == Some(out)
    {
      assert parts[..i + 1][..i] == parts[..i];
      var n := Atoi(parts[i]);
      if n.None? || n.value < 0 {
        PartsFail(parts, i + 1);
        return None;
      }
      out := out + [n.value];
    }
    assert parts[..|parts|] == parts;
    return Some(out);
  }

  // None is an unevaluable comparison.
  method CompareVersions(have: string, want: string) returns (r: Option<int>)
    ensures r == if Parse(have).None? || Parse(want).None? then None
                 else Some(Compare(Parse(have).value, Parse(want).value))
  {
    var ho := ParseVersion(have);
    var wo := ParseVersion(want);
    if ho.None? || wo.None? {
      return None;
    }
    var h, w := ho.value, wo.value;
    var i := 0;
    while i < |h| && i < |w|
      invariant 0 <= i <= |h| && i <= |w|
      invariant Compare(h, w) == Compare(h[i..], w[i..])
    {
      if h[i] != w[i] {
        return Some(if h[i] < w[i] then -1 else 1);
      }
      i := i + 1;
    }
    return Some(if |h| < |w| then -1 else if |h| > |w| then 1 else 0);
  }

  // ---------------------------------------------------------------------------
  // Policies
  // ---------------------------------------------------------------------------

  datatype Component = Component(
    id: string, ecosystem: string, name: string, version: string, digest: string, license: string, provenance: string)

  datatype Policy = Policy(
    id: string, allowedEcosystems: seq<string>, allowedLicenses: seq<string>, allowedProvenance: seq<string>,
    requireDigest: bool, minVersions: map<string, string>, prohibited: seq<string>,
    requireSBOM: bool, approvedRepos: seq<string>)

  datatype Verdict = OK | UNKNOWN | VIOLATION

  datatype PolicyResult = PolicyResult(policyId: string, componentId: string, verdict: Verdict, reasons: seq<string>)

  // One unmet dimension, or one that cannot be evaluated.
  datatype Finding = Violates(reason: string) | Unevaluable(reason: string)

  predicate ListedFold(list: seq<string>, value: string) {
    exists x :: x in list && EqualFold(Trim(x), value)
  }

  predicate Prohibits(denied: string, c: Component) {
    Trim(denied) != "" && (EqualFold(Trim(denied), c.ecosystem + "/" + c.name) || EqualFold(Trim(denied), c.id))
  }

  function EcosystemFindings(c: Component, allowed: seq<string>): seq<Finding> {
    if allowed != [] && !ListedFold(allowed, c.ecosystem)
    then [Violates("ecosystem " + c.ecosystem + " not allowed")] else []
  }

  function ProhibitedFindings(c: Component, prohibited: seq<string>): seq<Finding> {
    if prohibited == [] then []
    else
      var front, denied := ProhibitedFindings(c, prohibited[..|prohibited| - 1]), prohibited[|prohibited| - 1];
      if Prohibits(denied, c) then front + [Violates("component " + Trim(denied) + " prohibited")] else front
  }

  function DigestFindings(c: Component, required: bool): seq<Finding> {
    if required && Trim(c.digest) == "" then [Violates("digest required but absent")] else []
  }

  function VersionFindings(c: Component, minVersions: map<string, string>): seq<Finding> {
    var ecosystem := Lower(c.ecosystem);
    if ecosystem !in minVersions then []
    else
      var min := minVersions[ecosystem];
      if Trim(c.version) == "" then [Unevaluable("no version to compare against minimum " + min)]
      else if Parse(c.version).None? || Parse(min).None? then
        [Unevaluable("version " + c.version + " not comparable")]
      else if Compare(Parse(c.version).value, Parse(min).value) < 0 then
        [Violates("version " + c.version + " below minimum " + min)]
      else []
  }

  function LicenseFindings(c: Component, allowed: seq<string>): seq<Finding> {
    if allowed == [] then []
    else if Trim(c.license) == "" then [Unevaluable("no declared license to check")]
    else if !ListedFold(allowed, c.license) then [Violates("license " + c.license + " not allowed")]
    else []
  }

  function ProvenanceFindings(c: Component, allowed: seq<string>): seq<Finding> {
    if allowed != [] && c.provenance !in allowed
    then [Violates("provenance " + c.provenance + " not allowed")] else []
  }

  // Everything a policy has to say about a component, in the order of evaluation.
  function Findings(c: Component, p: Policy): seq<Finding> {
    EcosystemFindings(c, p.allowedEcosystems) + ProhibitedFindings(c, p.prohibited)
    + DigestFindings(c, p.requireDigest) + VersionFindings(c, p.minVersions)
    + LicenseFindings(c, p.allowedLicenses) + ProvenanceFindings(c, p.allowedProvenance)
  }

  function VerdictOf(findings: seq<Finding>): Verdict {
    if exists f :: f in findings && f.Violates? then VIOLATION
    else if findings != [] then UNKNOWN
    else OK
  }

  function Reasons(findings: seq<Finding>): seq<string> {
    MapSeq(findings, (f: Finding) => f.reason)
  }

  // The source's closures: a violation always wins, an unevaluable dimension only replaces OK.
  function Noted(r: PolicyResult, f: Finding): PolicyResult {
    r.(verdict := if f.Violates? then VIOLATION else if r.verdict == OK then UNKNOWN else r.verdict,
       reasons := r.reasons + [f.reason])
  }

  ghost predicate Tells(r: PolicyResult, findings: seq<Finding>) {
    r.verdict == VerdictOf(findings) && r.reasons == Reasons(findings)
  }

  lemma NotedTells(r: PolicyResult, findings: seq<Finding>, f: Finding)
    requires Tells(r, findings)
    ensures Tells(Noted(r, f), findings + [f])
  {
    assert forall g :: g in findings + [f] <==> g in findings || g == f;
    assert Reasons(findings + [f]) == Reasons(findings) + [f.reason];
  }

  method InFold(list: seq<string>, value: string) returns (found: bool)
    ensures found == ListedFold(list, value)
  {
    for i := 0 to |list|
      invariant forall x :: x in list[..i] ==> !EqualFold(Trim(x), value)
    {
      if EqualFold(Trim(list[i]), value) {
        return true;
      }
      assert list[..i + 1] == list[..i] + [list[i]];
    }
    assert list[..|list|] == list;
    return false;
  }

  method EvaluatePolicy(c: Component, p: Policy) returns (r: PolicyResult)
    ensures r.policyId == p.id && r.componentId == c.id
    ensures r.verdict == VerdictOf(Findings(c, p))
    ensures r.reasons == SortStrings(Reasons(Findings(c, p)))
  {
    r := PolicyResult(p.id, c.id, OK, []);
    ghost var found: seq<Finding> := [];
    if |p.allowedEcosystems| > 0 {
      var ok := InFold(p.allowedEcosystems, c.ecosystem);
      if !ok {
        found := found + [Violates("ecosystem " + c.ecosystem + " not allowed")];
        r := Noted(r, Violates("ecosystem " + c.ecosystem + " not allowed"));
      }
    }
    assert found == EcosystemFindings(c, p.allowedEcosystems);
    r := CheckProhibited(c, p.prohibited, r, found);
    found := found + ProhibitedFindings(c, p.prohibited);
    r := CheckDigest(c, p, r, found);
    found := found + DigestFindings(c, p.requireDigest);
    r := CheckVersion(c, p, r, found);
    found := found + VersionFindings(c, p.minVersions);
    r := CheckLicense(c, p, r, found);
    found := found + LicenseFindings(c, p.allowedLicenses);
    r := CheckProvenance(c, p, r, found);
    assert found + ProvenanceFindings(c, p.allowedProvenance) == Findings(c, p);
    r := r.(reasons := SortStrings(r.reasons));
  }

  method CheckProhibited(c: Component, prohibited: seq<string>, was: PolicyResult, ghost found: seq<Finding>)
    returns (r: PolicyResult)
    requires Tells(was, found)
    ensures Tells(r, found + ProhibitedFindings(c, prohibited)) && SameIds(r, was)
  {
    r := was;
    assert found + [] == found;
    for i := 0 to |prohibited|
      invariant Tells(r, found + ProhibitedFindings(c, prohibited[..i])) && SameIds(r, was)
    {
      assert prohibited[..i + 1][..i] == prohibited[..i];
      var denied := Trim(prohibited[i]);
      if denied == "" {
        continue;
      }
      if EqualFold(denied, c.ecosystem + "/" + c.name) || EqualFold(denied, c.id) {
        ghost var before, f := ProhibitedFindings(c, prohibited[..i]), Violates("component " + denied + " prohibited");
        NotedTells(r, found + before, f);
        assert found + before + [f] == found + (before + [f]);
        r := Noted(r, Violates("component " + denied + " prohibited"));
      }
    }
    assert prohibited[..|prohibited|] == prohibited;
  }

  ghost predicate SameIds(r: PolicyResult, s: PolicyResult) {
    r.policyId == s.policyId && r.componentId == s.componentId
  }

  method CheckDigest(c: Component, p: Policy, was: PolicyResult, ghost found: seq<Finding>) returns (r: PolicyResult)
    requires Tells(was, found)
    ensures Tells(r, found + DigestFindings(c, p.requireDigest)) && SameIds(r, was)
  {
    assert found + [] == found;
    if p.requireDigest && Trim(c.digest) == "" {
      NotedTells(was, found, Violates("digest required but absent"));
      return Noted(was, Violates("digest required but absent"));
    }
    return was;
  }

  method CheckVersion(c: Component, p: Policy, was: PolicyResult, ghost found: seq<Finding>) returns (r: PolicyResult)
    requires Tells(was, found)
    ensures Tells(r, found + VersionFindings(c, p.minVersions)) && SameIds(r, was)
  {
    assert found + [] == found;
    if Lower(c.ecosystem) !in p.minVersions {
      return was;
    }
    var min := p.minVersions[Lower(c.ecosystem)];
    var f := Unevaluable("no version to compare against minimum " + min);
    if Trim(c.version) != "" {
      var cmp := CompareVersions(c.version, min);
      if cmp.None? {
        f := Unevaluable("version " + c.version + " not comparable");
      } else if cmp.value < 0 {
        f := Violates("version " + c.version + " below minimum " + min);
      } else {
        return was;
      }
    }
    NotedTells(was, found, f);
    return Noted(was, f);
  }

  method CheckLicense(c: Component, p: Policy, was: PolicyResult, ghost found: seq<Finding>) returns (r: PolicyResult)
    requires Tells(was, found)
    ensures Tells(r, found + LicenseFindings(c, p.allowedLicenses)) && SameIds(r, was)
  {
    assert found + [] == found;
    if |p.allowedLicenses| == 0 {
      return was;
    }
    var f := Unevaluable("no declared license to check");
    if Trim(c.license) != "" {
      var ok := InFold(p.allowedLicenses, c.license);
      if ok {
        return was;
      }
      f := Violates("license " + c.license + " not allowed");
    }
    NotedTells(was, found, f);
    return Noted(was, f);
  }

  method CheckProvenance(c: Component, p: Policy, was: PolicyResult, ghost found: seq<Finding>)
    returns (r: PolicyResult)
    requires Tells(was, found)
    ensures Tells(r, found + ProvenanceFindings(c, p.allowedProvenance)) && SameIds(r, was)
  {
    assert found + [] == found;
    if |p.allowedProvenance| > 0 && c.provenance !in p.allowedProvenance {
      NotedTells(was, found, Violates("provenance " + c.provenance + " not allowed"));
      return Noted(was, Violates("provenance " + c.provenance + " not allowed"));
    }
    return was;
  }

  // ---------------------------------------------------------------------------
  // What a verdict means
  // ---------------------------------------------------------------------------

  ghost predicate BelowMinimum(c: Component, p: Policy) {
    && Lower(c.ecosystem) in p.minVersions && Trim(c.version) != ""
    && Parse(c.version).Some? && Parse(p.minVersions[Lower(c.ecosystem)]).Some?
    && Precedes(Parse(c.version).value, Parse(p.minVersions[Lower(c.ecosystem)]).value)
  }

  ghost predicate VersionUnknown(c: Component, p: Policy) {
    && Lower(c.ecosystem) in p.minVersions
    && (Trim(c.version) == "" || Parse(c.version).None? || Parse(p.minVersions[Lower(c.ecosystem)]).None?)
  }

  ghost predicate Violated(c: Component, p: Policy) {
    || (p.allowedEcosystems != [] && !ListedFold(p.allowedEcosystems, c.ecosystem))
    || (exists denied :: denied in p.prohibited && Prohibits(denied, c))
    || (p.requireDigest && Trim(c.digest) == "")
    || BelowMinimum(c, p)
    || (p.allowedLicenses != [] && Trim(c.license) != "" && !ListedFold(p.allowedLicenses, c.license))
    || (p.allowedProvenance != [] && c.provenance !in p.allowedProvenance)
  }

  ghost predicate Undecided(c: Component, p: Policy) {
    VersionUnknown(c, p) || (p.allowedLicenses != [] && Trim(c.license) == "")
  }

  lemma {:induction false} ProhibitedMeans(c: Component, prohibited: seq<string>)
    ensures ProhibitedFindings(c, prohibited) != [] <==> exists denied :: denied in prohibited && Prohibits(denied, c)
    ensures forall f :: f in ProhibitedFindings(c, prohibited) ==> f.Violates?
  {
    if prohibited != [] {
      var front, denied := prohibited[..|prohibited| - 1], prohibited[|prohibited| - 1];
      ProhibitedMeans(c, front);
      assert forall d :: d in prohibited <==> d in front || d == denied;
    }
  }

  lemma VersionMeans(c: Component, p: Policy)
    ensures (exists f :: f in VersionFindings(c, p.minVersions) && f.Violates?) <==> BelowMinimum(c, p)
    ensures (exists f :: f in VersionFindings(c, p.minVersions) && f.Unevaluable?) <==> VersionUnknown(c, p)
  {
    if Parse(c.version).Some? && Lower(c.ecosystem) in p.minVersions
       && Parse(p.minVersions[Lower(c.ecosystem)]).Some? {
      CompareMeans(Parse(c.version).value, Parse(p.minVersions[Lower(c.ecosystem)]).value);
    }
    if VersionFindings(c, p.minVersions) != [] {
      assert VersionFindings(c, p.minVersions)[0] in VersionFindings(c, p.minVersions);
    }
  }

  /** The fold's verdict: a violation if any dimension is violated, else unknown if any cannot be evaluated, else OK. */
  lemma VerdictMeans(c: Component, p: Policy)
    ensures VerdictOf(Findings(c, p))
         == if Violated(c, p) then VIOLATION else if Undecided(c, p) then UNKNOWN else OK
  {
    ProhibitedMeans(c, p.prohibited);
    VersionMeans(c, p);
    var all := Findings(c, p);
    SplitFindings(c, p);
    if exists denied :: denied in p.prohibited && Prohibits(denied, c) {
      assert ProhibitedFindings(c, p.prohibited)[0] in all;
    }
    if p.allowedEcosystems != [] && !ListedFold(p.allowedEcosystems, c.ecosystem) {
      assert EcosystemFindings(c, p.allowedEcosystems)[0] in all;
    }
    if p.requireDigest && Trim(c.digest) == "" {
      assert DigestFindings(c, p.requireDigest)[0] in all;
    }
    if p.allowedLicenses != [] && (Trim(c.license) == "" || !ListedFold(p.allowedLicenses, c.license)) {
      assert LicenseFindings(c, p.allowedLicenses)[0] in all;
    }
    if p.allowedProvenance != [] && c.provenance !in p.allowedProvenance {
      assert ProvenanceFindings(c, p.allowedProvenance)[0] in all;
    }
    if all != [] {
      assert all[0] in all;
    }
  }

  lemma SplitFindings(c: Component, p: Policy)
    ensures forall f :: f in Findings(c, p) <==>
              || f in EcosystemFindings(c, p.allowedEcosystems) || f in ProhibitedFindings(c, p.prohibited)
              || f in DigestFindings(c, p.requireDigest) || f in VersionFindings(c, p.minVersions)
              || f in LicenseFindings(c, p.allowedLicenses) || f in ProvenanceFindings(c, p.allowedProvenance)
  {
  }

  // Requiring an SBOM or listing approved repositories changes no finding of any component: no verdict, no reason.
  lemma UnreadDimensions(c: Component, p: Policy, requireSBOM: bool, approvedRepos: seq<string>)
    ensures Findings(c, p.(requireSBOM := requireSBOM, approvedRepos := approvedRepos)) == Findings(c, p)
  {
  }

  // A policy may therefore demand both and still find nothing wrong with a component that has neither.
  lemma SbomUnenforced()
    ensures var c := Component("comp", "npm", "left-pad", "1.0", "", "", "UNKNOWN");
            var p := Policy("policy", [], [], [], false, map[], [], true, ["https://registry.example.com"]);
            p.requireSBOM && p.approvedRepos != [] && VerdictOf(Findings(c, p)) == OK
  {
    var c := Component("comp", "npm", "left-pad", "1.0", "", "", "UNKNOWN");
    var p := Policy("policy", [], [], [], false, map[], [], true, ["https://registry.example.com"]);
    assert Findings(c, p) == [];
  }

  /** The exact reach of the two dimensions: a policy that is empty but for them finds nothing in any component. */
  lemma OnlyUnreadDimensions(c: Component, p: Policy)
    requires p.allowedEcosystems == [] && p.allowedLicenses == [] && p.allowedProvenance == []
    requires !p.requireDigest && p.minVersions == map[] && p.prohibited == []
    ensures Findings(c, p) == [] && VerdictOf(Findings(c, p)) == OK
  {
    UnreadDimensions(c, p, false, []);
  }

  function Badness(v: Verdict): nat {
    match v
    case OK => 0
    case UNKNOWN => 1
    case VIOLATION => 2
  }

  // Every dimension of the first policy is either empty or the same in the second.
  ghost predicate Stricter(p: Policy, p': Policy) {
    && (p.allowedEcosystems == [] || p.allowedEcosystems == p'.allowedEcosystems)
    && (p.allowedLicenses == [] || p.allowedLicenses == p'.allowedLicenses)
    && (p.allowedProvenance == [] || p.allowedProvenance == p'.allowedProvenance)
    && (p.requireDigest ==> p'.requireDigest)
    && (forall e :: e in p.minVersions ==> e in p'.minVersions && p'.minVersions[e] == p.minVersions[e])
    && (forall d :: d in p.prohibited ==> d in p'.prohibited)
  }

  /** Filling in empty dimensions never improves a verdict. */
  lemma StricterNeverImproves(c: Component, p: Policy, p': Policy)
    requires Stricter(p, p')
    ensures Badness(VerdictOf(Findings(c, p))) <= Badness(VerdictOf(Findings(c, p')))
  {
    VerdictMeans(c, p);
    VerdictMeans(c, p');
  }

  /** Raising a minimum version never improves a verdict, in particular it removes no violation. */
  lemma RaisedMinimumNeverImproves(c: Component, p: Policy, ecosystem: string, min: string)
    requires ecosystem in p.minVersions && Parse(p.minVersions[ecosystem]).Some? && Parse(min).Some?
    requires Compare(Parse(p.minVersions[ecosystem]).value, Parse(min).value) <= 0
    ensures Badness(VerdictOf(Findings(c, p)))
         <= Badness(VerdictOf(Findings(c, p.(minVersions := p.minVersions[ecosystem := min]))))
  {
    var p' := p.(minVersions := p.minVersions[ecosystem := min]);
    VerdictMeans(c, p);
    VerdictMeans(c, p');
    if BelowMinimum(c, p) && Lower(c.ecosystem) == ecosystem {
      var v, low, high := Parse(c.version).value, Parse(p.minVersions[ecosystem]).value, Parse(min).value;
      CompareMeans(v, low);
      CompareTransitive(v, low, high);
      CompareMeans(v, high);
    }
  }

  // ---------------------------------------------------------------------------
  // How a version is written
  // ---------------------------------------------------------------------------

  // The usual notation: decimal numbers joined by dots.
  function Written(v: Version): string {
    Join(Numerals(v), '.')
  }

  function Numerals(v: Version): seq<string> {
    if v == [] then [] else Numerals(v[..|v| - 1]) + [Decimal(v[|v| - 1])]
  }

  lemma DigitChar(d: nat)
    requires d < 10
    ensures '0' <= HEX_DIGITS[d] <= '9' && DigitOf(HEX_DIGITS[d]) == d && !IsSpace(HEX_DIGITS[d])
  {
  }

  lemma DigitsMore(s: string, c: char)
    ensures DigitsValue(s + [c]) == 10 * DigitsValue(s) + DigitOf(c)
  {
    assert (s + [c])[..|s|] == s;
  }

  lemma {:induction false} DecimalValue(n: nat)
    ensures IsDigits(Decimal(n)) && DigitsValue(Decimal(n)) == n
    ensures Trimmed(Decimal(n)) && '.' !in Decimal(n)
  {
    if n < 10 {
      DigitChar(n);
      DigitsMore("", HEX_DIGITS[n]);
      assert "" + [HEX_DIGITS[n]] == Decimal(n);
    } else {
      DecimalValue(n / 10);
      DigitChar(n % 10);
      DigitsMore(Decimal(n / 10), HEX_DIGITS[n % 10]);
    }
  }

  lemma DecimalReads(n: nat)
    ensures Atoi(Decimal(n)) == if n <= MAX_INT then Some(n) else None
  {
    DecimalValue(n);
    assert Decimal(n)[0] in Decimal(n);
  }

  lemma {:induction false} NumeralsRead(v: Version)
    requires forall i :: 0 <= i < |v| ==> v[i] <= MAX_INT
    ensures ParseParts(Numerals(v)) == Some(v)
  {
    if v != [] {
      var front, n := v[..|v| - 1], v[|v| - 1];
      NumeralsRead(front);
      OneMoreRead(front, Numerals(front), n);
      assert Numerals(v) == Numerals(front) + [Decimal(n)];
      assert v == front + [n];
    }
  }

  lemma OneMoreRead(front: Version, parts: seq<string>, n: nat)
    requires ParseParts(parts) == Some(front) && n <= MAX_INT
    ensures ParseParts(parts + [Decimal(n)]) == Some(front + [n])
  {
    DecimalReads(n);
    PartsMore(parts, Decimal(n));
  }

  lemma PartsMore(parts: seq<string>, part: string)
    ensures ParseParts(parts + [part])
         == if ParseParts(parts).None? || Atoi(part).None? || Atoi(part).value < 0 then None
            else Some(ParseParts(parts).value + [Atoi(part).value])
  {
    assert (parts + [part])[..|parts|] == parts;
  }

  lemma {:induction false} NumeralsStand(v: Version)
    ensures |Numerals(v)| == |v|
    ensures forall part :: part in Numerals(v) ==> part != "" && Trimmed(part) && '.' !in part
  {
    if v != [] {
      NumeralsStand(v[..|v| - 1]);
      DecimalValue(v[|v| - 1]);
    }
  }

  lemma {:induction false} JoinTrimmed(parts: seq<string>)
    requires parts != [] && forall part :: part in parts ==> part != "" && Trimmed(part)
    ensures Join(parts, '.') != "" && Trimmed(Join(parts, '.'))
  {
    assert parts[0] in parts;
    if |parts| > 1 {
      assert forall part :: part in parts[1..] ==> part in parts;
      JoinTrimmed(parts[1..]);
    }
  }

  /** A version in its usual notation is read as its numbers. */
  lemma VersionReads(v: Version)
    requires v != [] && forall i :: 0 <= i < |v| ==> v[i] <= MAX_INT
    ensures Parse(Written(v)) == Some(v)
  {
    NumeralsStand(v);
    NumeralsRead(v);
    JoinTrimmed(Numerals(v));
    TrimFixed(Written(v));
    SplitMeans(Written(v), '.');
    JoinInjective(Split(Written(v), '.'), Numerals(v), '.');
  }

  // Digits, perhaps after a sign.
  ghost predicate Numeric(part: string) {
    IsDigits(part) || (part != "" && (part[0] == '+' || part[0] == '-') && IsDigits(part[1..]))
  }

  lemma {:induction false} PartsNumeric(parts: seq<string>)
    requires ParseParts(parts).Some?
    ensures |ParseParts(parts).value| == |parts| && forall part :: part in parts ==> Numeric(part)
  {
    if parts != [] {
      PartsNumeric(parts[..|parts| - 1]);
      assert parts == parts[..|parts| - 1] + [parts[|parts| - 1]];
    }
  }

  /** Whatever is read as a version is numerals joined by dots, one for each of its numbers, between white space. */
  lemma VersionRejects(s: string)
    requires Parse(s).Some?
    ensures exists parts :: |parts| == |Parse(s).value| > 0 && Trim(s) == Join(parts, '.')
                            && forall part :: part in parts ==> Numeric(part)
  {
    PartsNumeric(Split(Trim(s), '.'));
    SplitMeans(Trim(s), '.');
  }

  // ---------------------------------------------------------------------------
  // The policy on the fields of a component
  // ---------------------------------------------------------------------------

  // The text is one of the list, but for outer white space there and for case.
  ghost predicate Among(text: string, list: seq<string>) {
    exists x :: x in list && Lower(Trim(x)) == Lower(text)
  }

  // The minimum for the component's ecosystem, if there is one.
  function MinimumFor(c: Component, p: Policy): Option<string> {
    if Lower(c.ecosystem) in p.minVersions then Some(p.minVersions[Lower(c.ecosystem)]) else None
  }

  // Both versions can be read, and the component's comes first.
  ghost predicate TooOld(c: Component, min: string) {
    exists v, w :: Parse(c.version) == Some(v) && Parse(min) == Some(w) && Precedes(v, w)
  }

  ghost predicate Breaks(c: Component, p: Policy) {
    || (p.allowedEcosystems != [] && !Among(c.ecosystem, p.allowedEcosystems))
    || (exists d :: d in p.prohibited && Trim(d) != ""
                    && (Lower(Trim(d)) == Lower(c.ecosystem + "/" + c.name) || Lower(Trim(d)) == Lower(c.id)))
    || (p.requireDigest && Trim(c.digest) == "")
    || (MinimumFor(c, p).Some? && TooOld(c, MinimumFor(c, p).value))
    || (p.allowedLicenses != [] && Trim(c.license) != "" && !Among(c.license, p.allowedLicenses))
    || (p.allowedProvenance != [] && c.provenance !in p.allowedProvenance)
  }

  ghost predicate CannotTell(c: Component, p: Policy) {
    || (MinimumFor(c, p).Some? && (Parse(c.version).None? || Parse(MinimumFor(c, p).value).None?))
    || (p.allowedLicenses != [] && Trim(c.license) == "")
  }

  /** The verdict on the fields themselves: a violation when one of the dimensions is broken, unknown when none is but one
      cannot be told, and otherwise OK. */
  lemma VerdictOnFields(c: Component, p: Policy)
    ensures VerdictOf(Findings(c, p)) == if Breaks(c, p) then VIOLATION else if CannotTell(c, p) then UNKNOWN else OK
  {
    VerdictMeans(c, p);
    forall value, list ensures Among(value, list) <==> ListedFold(list, value) {
    }
    forall d | d in p.prohibited
      ensures Prohibits(d, c) <==> Trim(d) != "" && (Lower(Trim(d)) == Lower(c.ecosystem + "/" + c.name)
                                                     || Lower(Trim(d)) == Lower(c.id))
    {
    }
    assert Trim(c.version) == "" ==> Parse(c.version).None?;
  }
}
