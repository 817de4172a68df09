/** What an observation is made into, what a URL yields, and which status changes there are, on the fields alone. */
module AssetReadings {
  import opened Base
  import opened Text
  import opened Canonical
  import opened Inventory
  import opened InventoryRuns

  // ---------------------------------------------------------------------------
  // Observations
  // ---------------------------------------------------------------------------

  // The name a raw text stands for. Types 9, 10 and 3 are the address, the URL and the service.
  ghost predicate Named(typ: int, raw: string, name: string, parsers: Parsers) {
    if typ == 8 then IsDomain(Lower(Trim(raw)), name)
    else if typ == 9 then parsers.ip(Trim(raw)) == Some(name)
    else if typ == 10 then parsers.url(Trim(raw)) == Some(name)
    else if typ == 3 then parsers.service(Trim(raw)) == Some(name)
    else if typ == 1 then name == Lower(Trim(raw)) && forall c :: c in name ==> c != ' ' && c != '\t' && c != '/'
    else name == Trim(raw)
  }

  ghost predicate IsDomain(text: string, name: string) {
    && (text == name || text == name + ".") && 1 <= |name| <= 253 && name[|name| - 1] != '.'
    && (forall part :: part in Split(name, '.') ==> IsLabel(part))
  }

  lemma CanonicalizeMeans(typ: int, raw: string, name: string, parsers: Parsers)
    requires 1 <= typ <= 11 && name != ""
    ensures Canonicalize(typ, raw, parsers) == Some(name) <==> Named(typ, raw, name, parsers)
  {
    DomainMeans(raw, name);
    HostMeans(raw, name);
  }

  // What a normalized asset holds.
  ghost predicate Observed(a: Asset, environment: string, at: Time, attributes: map<string, string>) {
    && a.id == "ast-" + Digest(Decimal(a.typ) + "\U{1f}" + a.name)
    && a.environment == Trim(environment) && a.status == 1
    && a.firstSeen == Some(at) && a.lastSeen == Some(at) && a.attributes == attributes
  }

  /** An observation is normalized exactly when its source is not blank, its type is one of the eleven, its time is set and
      its raw text stands for a name. The asset is discovered, under its type and name, with first and last sighting at the
      time observed. */
  lemma NormalizeMeans(obs: Observation, a: Asset, parsers: Parsers)
    ensures Normalize(obs, parsers) == Some(a) <==>
              && Trim(obs.source) != "" && 1 <= obs.typ <= 11 && obs.observedAt != 0 && a.name != ""
              && Named(obs.typ, obs.raw, a.name, parsers) && a.typ == obs.typ
              && Observed(a, obs.environment, obs.observedAt, obs.attributes)
  {
    if 1 <= obs.typ <= 11 && a.name != "" {
      CanonicalizeMeans(obs.typ, obs.raw, a.name, parsers);
    }
  }

  // ---------------------------------------------------------------------------
  // Decomposition
  // ---------------------------------------------------------------------------

  // An asset derived from a URL: the address that its host is, or the domain when it is no address, or the service at its
  // host and port.
  ghost predicate Yields(url: Asset, host: string, port: string, d: Asset, parsers: Parsers) {
    if d.typ == 9 then
      parsers.ip(Trim(host)).Some? && parsers.ip(Trim(parsers.ip(Trim(host)).value)) == Some(d.name)
    else if d.typ == 8 then parsers.ip(Trim(host)).None? && IsDomain(Lower(Trim(host)), d.name)
    else
      && d.typ == 3 && port != "" && parsers.service(Trim(host + ":" + port)).Some?
      && parsers.service(Trim(parsers.service(Trim(host + ":" + port)).value)) == Some(d.name)
  }

  ghost predicate Derived(url: Asset, d: Asset, at: Time) {
    && d.name != ""
    && Observed(d, url.environment, at,
                map["blueveil.derived_from" := url.id, "blueveil.derivation" := "url-host-decomposition"])
  }

  ghost predicate Decomposes(a: Asset, at: Time, parsers: Parsers) {
    a.typ == 10 && at != 0 && parsers.hostPort(a.name).0 != ""
  }

  // Every owner contains the URL, and the URL contains its service.
  ghost predicate Contains(r: Relationship, a: Asset, d: Asset, source: string, at: Time) {
    r == if d.typ == 3 then Relationship(a.id, d.id, "CONTAINS", source, at)
         else Relationship(d.id, a.id, "CONTAINS", source, at)
  }

  lemma HostMeaning(a: Asset, host: string, source: string, at: Time, d: Asset, parsers: Parsers)
    requires at != 0
    ensures DeriveHost(a, host, source, at, parsers) == Some(d) <==>
              (d.typ == 9 || d.typ == 8) && Yields(a, host, "", d, parsers) && Derived(a, d, at)
  {
    DerivedSource(source);
    var ip := parsers.ip(Trim(host));
    if ip.Some? {
      NormalizeMeans(DerivedFrom(a, 9, ip.value, source, at), d, parsers);
    } else if CanonicalDomain(host).Some? {
      var domain := CanonicalDomain(host).value;
      DomainIdempotent(host);
      DomainChars(host);
      NormalizeMeans(DerivedFrom(a, 8, domain, source, at), d, parsers);
      DomainMeans(host, domain);
      DomainMeans(host, d.name);
      DomainMeans(domain, d.name);
    } else {
      DomainMeans(host, d.name);
    }
  }

  lemma ServiceMeaning(a: Asset, host: string, port: string, source: string, at: Time, d: Asset, parsers: Parsers)
    requires at != 0
    ensures DeriveService(a, host, port, source, at, parsers) == Some(d) <==>
              d.typ == 3 && Yields(a, host, port, d, parsers) && Derived(a, d, at)
  {
    DerivedSource(source);
    var service := parsers.service(Trim(host + ":" + port));
    if port != "" && service.Some? {
      NormalizeMeans(DerivedFrom(a, 3, service.value, source, at), d, parsers);
    }
  }

  /** What a URL yields: exactly the address or else the domain of its host, and the service at its port, discovered at the
      same time in the same environment and marked as derived. */
  lemma AssetsMean(a: Asset, source: string, at: Time, d: Asset, parsers: Parsers)
    ensures d in Decompose(a, source, at, parsers).assets <==>
              && Decomposes(a, at, parsers) && Derived(a, d, at)
              && Yields(a, parsers.hostPort(a.name).0, parsers.hostPort(a.name).1, d, parsers)
  {
    if Decomposes(a, at, parsers) {
      var (host, port) := parsers.hostPort(a.name);
      SortedAssets(DeriveHost(a, host, source, at, parsers), DeriveService(a, host, port, source, at, parsers));
      HostMeaning(a, host, source, at, d, parsers);
      ServiceMeaning(a, host, port, source, at, d, parsers);
    }
  }

  /** And each derived asset is linked with the URL, once, in its direction. */
  lemma LinksMean(a: Asset, source: string, at: Time, r: Relationship, parsers: Parsers)
    ensures r in Decompose(a, source, at, parsers).rels <==>
              exists d :: d in Decompose(a, source, at, parsers).assets && Contains(r, a, d, source, at)
    ensures |Decompose(a, source, at, parsers).rels| == |Decompose(a, source, at, parsers).assets|
  {
    if Decomposes(a, at, parsers) {
      var (host, port) := parsers.hostPort(a.name);
      var owner, service := DeriveHost(a, host, source, at, parsers), DeriveService(a, host, port, source, at, parsers);
      var assets, rels := Decompose(a, source, at, parsers).assets, Decompose(a, source, at, parsers).rels;
      AsManyLinks(owner, service, a, source, at);
      LinksOf(owner, service, a, source, at, r);
      SortedAssets(owner, service);
      if owner.Some? {
        HostMeaning(a, host, source, at, owner.value, parsers);
        assert owner.value in assets;
      }
      if service.Some? {
        ServiceMeaning(a, host, port, source, at, service.value, parsers);
        assert service.value in assets;
      }
      assert r in rels <==> exists d :: d in assets && Contains(r, a, d, source, at);
    }
  }

  lemma AsManyLinks(owner: Option<Asset>, service: Option<Asset>, a: Asset, source: string, at: Time)
    ensures |SortBy(OwnerLinks(owner, a, source, at) + ServiceLinks(service, a, source, at), RelLe)|
         == |SortBy(Present(owner) + Present(service), AssetLe)|
  {
    var links := OwnerLinks(owner, a, source, at) + ServiceLinks(service, a, source, at);
    var assets := Present(owner) + Present(service);
    assert |links| == |assets|;
    SortByLength(links, RelLe);
    SortByLength(assets, AssetLe);
  }

  lemma SortByLength<T>(s: seq<T>, le: (T, T) -> bool)
    ensures |SortBy(s, le)| == |s|
  {
    SortByKeeps(s, le);
    assert |SortBy(s, le)| == |multiset(SortBy(s, le))| && |s| == |multiset(s)|;
  }

  lemma LinksOf(owner: Option<Asset>, service: Option<Asset>, a: Asset, source: string, at: Time, r: Relationship)
    ensures r in SortBy(OwnerLinks(owner, a, source, at) + ServiceLinks(service, a, source, at), RelLe) <==>
              || (owner.Some? && r == Relationship(owner.value.id, a.id, "CONTAINS", source, at))
              || (service.Some? && r == Relationship(a.id, service.value.id, "CONTAINS", source, at))
  {
    var links := OwnerLinks(owner, a, source, at) + ServiceLinks(service, a, source, at);
    SortByKeeps(links, RelLe);
    MembersOfPermutation(SortBy(links, RelLe), links);
  }

  // ---------------------------------------------------------------------------
  // Status changes
  // ---------------------------------------------------------------------------

  // From unspecified or discovered (0, 1) to active (2), between active and stale (3), and from both to retired (4).
  const MOVES: set<(int, int)> := {(0, 2), (1, 2), (2, 3), (2, 4), (3, 2), (3, 4)}

  lemma NextMeans(from: int, to: int)
    ensures to in NextStates(from) <==> (from, to) in MOVES
  {
  }

  /** A status change of a stored asset succeeds exactly on one of these moves with a clock that is set and not before the
      first sighting. It then sets the status and the last sighting, and changes nothing else. */
  lemma MoveMeans(s: Store, id: string, to: Status, now: Time, parsers: Parsers)
    requires Sound(s, parsers) && id in s.assets
    ensures var m, a := MoveStep(s, id, to, now, parsers), s.assets[id];
            && (m.answer.Kept? <==> (a.status, to) in MOVES && now != 0 && a.firstSeen.value <= now)
            && m.store == (if m.answer.Kept? then s.(assets := s.assets[id := a.(status := to, lastSeen := Some(now))])
                           else s)
  {
    MoveOutcome(s, id, to, now, parsers);
    NextMeans(s.assets[id].status, to);
  }

  // ---------------------------------------------------------------------------
  // What the repositories take
  // ---------------------------------------------------------------------------

  ghost predicate BrokenAsset(a: Asset) {
    || a.id == "" || a.name == "" || a.typ < 1 || a.typ > 11 || a.status < 0 || a.status > 4
    || (a.lastSeen.Some? && (a.firstSeen.None? || a.firstSeen.value > a.lastSeen.value))
  }

  // The name of a host, service, domain, address or URL stands for itself.
  ghost predicate OwnName(a: Asset, parsers: Parsers) {
    a.typ in {1, 3, 8, 9, 10} ==> Named(a.typ, a.name, a.name, parsers)
  }

  // Another stored asset has the type and the name.
  ghost predicate Taken(assets: Assets, a: Asset) {
    exists id :: id in assets && id != a.id && assets[id].typ == a.typ && assets[id].name == a.name
  }

  /** An asset is created exactly when it is whole, named as its type demands and new in id and in type and name. It is saved
      exactly when it is whole, so named, stored already, and no other has its type and name. */
  lemma WritesMean(assets: Assets, a: Asset, parsers: Parsers)
    ensures CreateError(assets, a, parsers).None?
       <==> !BrokenAsset(a) && OwnName(a, parsers) && a.id !in assets && !Taken(assets, a)
    ensures SaveError(assets, a, parsers).None?
       <==> !BrokenAsset(a) && OwnName(a, parsers) && a.id in assets && !Taken(assets, a)
  {
    if !BrokenAsset(a) {
      CanonicalizeMeans(a.typ, a.name, a.name, parsers);
    }
    if id :| id in assets && id != a.id && SameIdentity(assets[id], a) {
      assert Taken(assets, a);
    }
    if Taken(assets, a) {
      var id :| id in assets && id != a.id && assets[id].typ == a.typ && assets[id].name == a.name;
      assert SameIdentity(assets[id], a);
    }
  }

  const KINDS: set<string> := {
    "CONTAINS", "COMMUNICATES_WITH", "EXPOSES", "SERVED_BY", "RUNS", "HOSTED_ON", "PART_OF", "BELONGS_TO", "ACCESSES",
    "MEMBER_OF", "ASSUMES", "AUTHENTICATES_TO"}

  /** A relationship is appended exactly when it names two different assets, one of the twelve kinds, its source and its
      time, and none is stored between the same two of the same kind. */
  lemma AppendMeans(rels: Rels, r: Relationship)
    ensures AppendError(rels, r).None?
       <==> r.parent != "" && r.child != "" && r.parent != r.child && r.kind in KINDS && r.source != ""
            && r.observedAt != 0 && RelKey(r.parent, r.child, r.kind) !in rels
  {
  }
}
