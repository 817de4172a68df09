/** What every run of ingestions and lifecycle moves keeps in the inventory, error paths and racing writers included. */
module InventoryRuns {
  import opened Base
  import opened Text
  import opened Canonical
  import opened Inventory

  // ---------------------------------------------------------------------------
  // The invariant
  // ---------------------------------------------------------------------------

  ghost predicate SoundAsset(id: string, a: Asset, parsers: Parsers) {
    && a.id == id && a.id == IdFor(a.typ, a.name)
    && Storable(a, parsers)
    && DISCOVERED <= a.status && a.firstSeen.Some? && a.lastSeen.Some?
  }

  ghost predicate SoundAssets(assets: Assets, parsers: Parsers) {
    forall id :: id in assets ==> SoundAsset(id, assets[id], parsers)
  }

  // Namespace owners above URLs, URLs above services.
  function Layer(t: AssetType): nat {
    if t == DOMAIN || t == IP_ADDRESS then 0 else if t == URL then 1 else 2
  }

  ghost predicate SoundLink(k: RelKey, r: Relationship, assets: Assets) {
    && KeyOf(r) == k && r.kind == CONTAINS
    && r.parent in assets && r.child in assets
    && Layer(assets[r.parent].typ) < Layer(assets[r.child].typ)
  }

  ghost predicate SoundLinks(rels: Rels, assets: Assets) {
    forall k :: k in rels ==> SoundLink(k, rels[k], assets)
  }

  ghost predicate Sound(s: Store, parsers: Parsers) {
    SoundAssets(s.assets, parsers) && SoundLinks(s.rels, s.assets)
  }

  // Nothing is deleted, and every asset has evolved lawfully.
  ghost predicate Evolves(before: Assets, after: Assets) {
    forall id :: id in before ==> id in after && Successor(before[id], after[id])
  }

  lemma EvolvesOn(a: Assets, b: Assets, c: Assets)
    requires Evolves(a, b) && Evolves(b, c)
    ensures Evolves(a, c)
  {
  }

  lemma LinksEvolve(rels: Rels, before: Assets, after: Assets)
    requires SoundLinks(rels, before) && Evolves(before, after)
    ensures SoundLinks(rels, after)
  {
  }

  // The identity of an asset is its id.
  lemma IdentityUnique(assets: Assets, parsers: Parsers, x: string, y: string)
    requires SoundAssets(assets, parsers) && x in assets && y in assets && SameIdentity(assets[x], assets[y])
    ensures x == y
  {
  }

  // ---------------------------------------------------------------------------
  // Single writes
  // ---------------------------------------------------------------------------

  // An asset as normalization makes it.
  ghost predicate Normalized(a: Asset) {
    && a.id == IdFor(a.typ, a.name) && KnownType(a.typ) && a.status == DISCOVERED
    && a.firstSeen.Some? && a.lastSeen.Some?
  }

  lemma NormalizeNormalizes(obs: Observation, parsers: Parsers)
    requires Normalize(obs, parsers).Some?
    ensures Normalized(Normalize(obs, parsers).value)
  {
  }

  // A created or duplicate asset is stored under its id with its identity.
  lemma CreateSound(assets: Assets, a: Asset, parsers: Parsers)
    requires SoundAssets(assets, parsers) && Normalized(a)
    ensures var after := Created(assets, a, parsers);
            && SoundAssets(after, parsers) && Evolves(assets, after)
            && (CreateError(assets, a, parsers) != Some(ErrInvalid) ==>
                  a.id in after && SameIdentity(after[a.id], a))
  {
    forall id | id in assets && SameIdentity(assets[id], a) ensures id == a.id {
      assert SoundAsset(id, assets[id], parsers);
    }
    if a.id in assets {
      IdForInjective(assets[a.id].typ, assets[a.id].name, a.typ, a.name);
    }
  }

  // Two versions of one record.
  ghost predicate SameRecord(a: Asset, b: Asset) {
    a.id == b.id && a.typ == b.typ && a.name == b.name && a.firstSeen == b.firstSeen
  }

  // Another version of a stored record can only be refused for seeing last before first.
  lemma SaveVersion(assets: Assets, a: Asset, parsers: Parsers)
    requires SoundAssets(assets, parsers) && a.id in assets && SameRecord(assets[a.id], a)
    requires DISCOVERED <= a.status <= RETIRED && a.lastSeen.Some?
    ensures SoundAssets(Saved(assets, a, parsers), parsers)
    ensures SaveError(assets, a, parsers) == if a.firstSeen.value <= a.lastSeen.value then None else Some(ErrInvalid)
  {
    assert SoundAsset(a.id, assets[a.id], parsers);
    forall id | id in assets && SameIdentity(assets[id], a) ensures id == a.id {
      IdentityUnique(assets, parsers, id, a.id);
    }
  }

  // A lawful successor can only be refused for seeing last before first.
  lemma SaveSound(assets: Assets, a: Asset, parsers: Parsers)
    requires SoundAssets(assets, parsers) && a.id in assets && Successor(assets[a.id], a)
    requires DISCOVERED <= a.status <= RETIRED && a.lastSeen.Some?
    ensures SoundAssets(Saved(assets, a, parsers), parsers)
    ensures Evolves(assets, Saved(assets, a, parsers))
    ensures SaveError(assets, a, parsers) == if a.firstSeen.value <= a.lastSeen.value then None else Some(ErrInvalid)
  {
    assert SoundAsset(a.id, assets[a.id], parsers);
    forall id | id in assets && SameIdentity(assets[id], a) ensures id == a.id {
      IdentityUnique(assets, parsers, id, a.id);
    }
  }

  lemma {:induction false} CreateAllSound(assets: Assets, list: seq<Asset>, parsers: Parsers)
    requires SoundAssets(assets, parsers) && forall a :: a in list ==> Normalized(a)
    ensures var c := CreateAll(assets, list, parsers);
            && SoundAssets(c.assets, parsers) && Evolves(assets, c.assets)
            && (forall id :: id in assets ==> c.assets[id] == assets[id])
            && (c.error.None? ==> forall a :: a in list ==> a.id in c.assets && SameIdentity(c.assets[a.id], a))
  {
    if list != [] {
      var front, a := list[..|list| - 1], list[|list| - 1];
      assert list == front + [a];
      CreateAllSound(assets, front, parsers);
      var was := CreateAll(assets, front, parsers);
      if was.error.None? {
        CreateSound(was.assets, a, parsers);
        EvolvesOn(assets, was.assets, Created(was.assets, a, parsers));
      }
    }
  }

  // ---------------------------------------------------------------------------
  // Decomposition
  // ---------------------------------------------------------------------------

  // A link between a URL and one of the assets derived from it.
  ghost predicate Derives(r: Relationship, a: Asset, derived: seq<Asset>) {
    && r.kind == CONTAINS
    && exists d :: d in derived
         && (((d.typ == DOMAIN || d.typ == IP_ADDRESS) && r.parent == d.id && r.child == a.id)
             || (d.typ == SERVICE && r.parent == a.id && r.child == d.id))
  }

  lemma DecomposeFacts(a: Asset, source: string, at: Time, parsers: Parsers)
    ensures var parts := Decompose(a, source, at, parsers);
            && (forall d :: d in parts.assets ==> Normalized(d))
            && (forall r :: r in parts.rels ==> Derives(r, a, parts.assets))
            && (parts.rels != [] ==> a.typ == URL)
  {
    var (host, port) := parsers.hostPort(a.name);
    if at != ZERO_TIME && a.typ == URL && host != "" {
      var owner, service := DeriveHost(a, host, source, at, parsers), DeriveService(a, host, port, source, at, parsers);
      HostFacts(a, host, source, at, parsers);
      ServiceFacts(a, host, port, source, at, parsers);
      SortedAssets(owner, service);
      LinksDerive(owner, service, a, source, at);
    }
  }

  lemma SortedAssets(owner: Option<Asset>, service: Option<Asset>)
    ensures forall d :: d in SortBy(Present(owner) + Present(service), AssetLe)
                    <==> (owner.Some? && d == owner.value) || (service.Some? && d == service.value)
  {
    SortByKeeps(Present(owner) + Present(service), AssetLe);
    MembersOfPermutation(SortBy(Present(owner) + Present(service), AssetLe), Present(owner) + Present(service));
  }

  lemma LinksDerive(owner: Option<Asset>, service: Option<Asset>, a: Asset, source: string, at: Time)
    requires owner.Some? ==> owner.value.typ == DOMAIN || owner.value.typ == IP_ADDRESS
    requires service.Some? ==> service.value.typ == SERVICE
    ensures forall r :: r in SortBy(OwnerLinks(owner, a, source, at) + ServiceLinks(service, a, source, at), RelLe)
              ==> Derives(r, a, SortBy(Present(owner) + Present(service), AssetLe))
  {
    var links := OwnerLinks(owner, a, source, at) + ServiceLinks(service, a, source, at);
    SortByKeeps(links, RelLe);
    MembersOfPermutation(SortBy(links, RelLe), links);
    SortedAssets(owner, service);
    forall r | r in links ensures Derives(r, a, SortBy(Present(owner) + Present(service), AssetLe)) {
      if r in OwnerLinks(owner, a, source, at) {
        assert owner.value in SortBy(Present(owner) + Present(service), AssetLe);
      } else {
        assert service.value in SortBy(Present(owner) + Present(service), AssetLe);
      }
    }
  }

  lemma HostFacts(a: Asset, host: string, source: string, at: Time, parsers: Parsers)
    ensures var d := DeriveHost(a, host, source, at, parsers);
            d.Some? ==> Normalized(d.value) && (d.value.typ == DOMAIN || d.value.typ == IP_ADDRESS)
  {
  }

  lemma ServiceFacts(a: Asset, host: string, port: string, source: string, at: Time, parsers: Parsers)
    ensures var d := DeriveService(a, host, port, source, at, parsers);
            d.Some? ==> Normalized(d.value) && d.value.typ == SERVICE
  {
  }

  lemma {:induction false} AppendAllSound(rels: Rels, list: seq<Relationship>, assets: Assets, a: Asset,
                                          derived: seq<Asset>)
    requires SoundLinks(rels, assets)
    requires a.typ == URL && a.id in assets && SameIdentity(assets[a.id], a)
    requires forall d :: d in derived ==> d.id in assets && SameIdentity(assets[d.id], d)
    requires forall r :: r in list ==> Derives(r, a, derived)
    ensures SoundLinks(AppendAll(rels, list).rels, assets)
    ensures AppendAll(rels, list).error.None? ==> forall r :: r in list ==> KeyOf(r) in AppendAll(rels, list).rels
  {
    if list != [] {
      var front, r := list[..|list| - 1], list[|list| - 1];
      assert list == front + [r];
      AppendAllSound(rels, front, assets, a, derived);
      assert Derives(r, a, derived);
      assert SoundLink(KeyOf(r), r, assets);
    }
  }

  // ---------------------------------------------------------------------------
  // Steps
  // ---------------------------------------------------------------------------

  lemma TouchSound(s: Store, id: string, now: Time, parsers: Parsers)
    requires Sound(s, parsers)
    ensures var t := TouchStep(s, id, now, parsers);
            Sound(t.store, parsers) && Evolves(s.assets, t.store.assets) && t.store.rels == s.rels
  {
    if id in s.assets && now != ZERO_TIME {
      var a := Touch(s.assets[id], now).value;
      assert SoundAsset(id, s.assets[id], parsers);
      SaveSound(s.assets, a, parsers);
      LinksEvolve(s.rels, s.assets, Saved(s.assets, a, parsers));
    }
  }

  lemma MoveSound(s: Store, id: string, to: Status, now: Time, parsers: Parsers)
    requires Sound(s, parsers)
    ensures var m := MoveStep(s, id, to, now, parsers);
            Sound(m.store, parsers) && Evolves(s.assets, m.store.assets)
  {
    if id in s.assets && Transition(s.assets[id], to, now).Some? {
      var a := Transition(s.assets[id], to, now).value;
      assert SoundAsset(id, s.assets[id], parsers);
      SaveSound(s.assets, a, parsers);
      LinksEvolve(s.rels, s.assets, Saved(s.assets, a, parsers));
    }
  }

  lemma RivalSound(assets: Assets, rival: Rival, parsers: Parsers)
    requires SoundAssets(assets, parsers)
    ensures SoundAssets(RivalStep(assets, rival, parsers), parsers)
    ensures Evolves(assets, RivalStep(assets, rival, parsers))
  {
    match rival
    case Creates(obs) =>
      if Normalize(obs, parsers).Some? {
        NormalizeNormalizes(obs, parsers);
        CreateSound(assets, Normalize(obs, parsers).value, parsers);
      }
    case Touches(id, now) => TouchSound(Store(assets, map[]), id, now, parsers);
    case Moves(id, to, now) => MoveSound(Store(assets, map[]), id, to, now, parsers);
  }

  lemma {:induction false} RivalsSound(assets: Assets, rivals: seq<Rival>, parsers: Parsers)
    requires SoundAssets(assets, parsers)
    ensures SoundAssets(Rivals(assets, rivals, parsers), parsers)
    ensures Evolves(assets, Rivals(assets, rivals, parsers))
  {
    if rivals != [] {
      var was := Rivals(assets, rivals[..|rivals| - 1], parsers);
      RivalsSound(assets, rivals[..|rivals| - 1], parsers);
      RivalSound(was, rivals[|rivals| - 1], parsers);
      EvolvesOn(assets, was, RivalStep(was, rivals[|rivals| - 1], parsers));
    }
  }

  lemma MaterializeSound(s: Store, a: Asset, source: string, now: Time, parsers: Parsers)
    requires Sound(s, parsers) && a.id in s.assets && SameIdentity(s.assets[a.id], a)
    ensures var m := Materialize(s, a, source, now, parsers);
            Sound(m.store, parsers) && Evolves(s.assets, m.store.assets)
  {
    var parts := Decompose(a, source, now, parsers);
    DecomposeFacts(a, source, now, parsers);
    CreateAllSound(s.assets, parts.assets, parsers);
    var derived := CreateAll(s.assets, parts.assets, parsers);
    LinksEvolve(s.rels, s.assets, derived.assets);
    if derived.error.None? && parts.rels != [] {
      AppendAllSound(s.rels, parts.rels, derived.assets, a, parts.assets);
    }
  }

  // A completed first ingestion has stored the asset as observed, every derived asset and every link.
  ghost predicate Materialized(s: Store, a: Asset, parts: Parts) {
    && a.id in s.assets && s.assets[a.id] == a
    && (forall d :: d in parts.assets ==> d.id in s.assets && SameIdentity(s.assets[d.id], d))
    && (forall r :: r in parts.rels ==> KeyOf(r) in s.rels)
  }

  lemma MaterializeCompletes(s: Store, a: Asset, source: string, now: Time, parsers: Parsers)
    requires Sound(s, parsers) && a.id in s.assets && s.assets[a.id] == a
    requires Materialize(s, a, source, now, parsers).answer.Kept?
    ensures var m := Materialize(s, a, source, now, parsers);
            m.answer == Kept(a, true) && Materialized(m.store, a, Decompose(a, source, now, parsers))
  {
    var parts := Decompose(a, source, now, parsers);
    DecomposeFacts(a, source, now, parsers);
    CreateAllSound(s.assets, parts.assets, parsers);
    var derived := CreateAll(s.assets, parts.assets, parsers);
    LinksEvolve(s.rels, s.assets, derived.assets);
    if parts.rels != [] {
      AppendAllSound(s.rels, parts.rels, derived.assets, a, parts.assets);
    }
  }

  lemma IngestSound(s: Store, obs: Observation, now: Time, rivals: seq<Rival>, parsers: Parsers)
    requires Sound(s, parsers)
    ensures var i := IngestStep(s, obs, now, rivals, parsers);
            Sound(i.store, parsers) && Evolves(s.assets, i.store.assets)
  {
    if now != ZERO_TIME && Normalize(obs, parsers).Some? {
      var a := Normalize(obs, parsers).value;
      NormalizeNormalizes(obs, parsers);
      TouchSound(s, a.id, now, parsers);
      RivalsSound(s.assets, rivals, parsers);
      var raced := s.(assets := Rivals(s.assets, rivals, parsers));
      LinksEvolve(s.rels, s.assets, raced.assets);
      TouchSound(raced, a.id, now, parsers);
      EvolvesOn(s.assets, raced.assets, TouchStep(raced, a.id, now, parsers).store.assets);
      if CreateError(raced.assets, a, parsers).None? {
        var made := raced.(assets := Created(raced.assets, a, parsers));
        CreateSound(raced.assets, a, parsers);
        LinksEvolve(s.rels, raced.assets, made.assets);
        MaterializeSound(made, a, obs.source, now, parsers);
        EvolvesOn(s.assets, raced.assets, made.assets);
        EvolvesOn(s.assets, made.assets, Materialize(made, a, obs.source, now, parsers).store.assets);
      }
    }
  }

  // ---------------------------------------------------------------------------
  // Runs
  // ---------------------------------------------------------------------------

  datatype Op =
    | Ingest(obs: Observation, now: Time, rivals: seq<Rival>)
    | Move(id: string, to: Status, now: Time)

  function StepOf(s: Store, op: Op, parsers: Parsers): Store {
    match op
    case Ingest(obs, now, rivals) => IngestStep(s, obs, now, rivals, parsers).store
    case Move(id, to, now) => MoveStep(s, id, to, now, parsers).store
  }

  function Run(ops: seq<Op>, parsers: Parsers): Store {
    if ops == [] then Store(map[], map[]) else StepOf(Run(ops[..|ops| - 1], parsers), ops[|ops| - 1], parsers)
  }

  lemma StepSound(s: Store, op: Op, parsers: Parsers)
    requires Sound(s, parsers)
    ensures Sound(StepOf(s, op, parsers), parsers) && Evolves(s.assets, StepOf(s, op, parsers).assets)
  {
    match op
    case Ingest(obs, now, rivals) => IngestSound(s, obs, now, rivals, parsers);
    case Move(id, to, now) => MoveSound(s, id, to, now, parsers);
  }

  /** Every run keeps ids derived from identities, identities unique, times ordered and links between stored layers. */
  lemma {:induction false} RunSound(ops: seq<Op>, parsers: Parsers)
    ensures Sound(Run(ops, parsers), parsers)
  {
    if ops != [] {
      RunSound(ops[..|ops| - 1], parsers);
      StepSound(Run(ops[..|ops| - 1], parsers), ops[|ops| - 1], parsers);
    }
  }

  /** Between any two moments of a run no asset disappears, changes identity or first sighting, leaves RETIRED or returns
      to DISCOVERED. */
  lemma {:induction false} RunEvolves(ops: seq<Op>, n: nat, parsers: Parsers)
    requires n <= |ops|
    ensures Evolves(Run(ops[..n], parsers).assets, Run(ops, parsers).assets)
  {
    if n == |ops| {
      assert ops[..n] == ops;
    } else {
      var front := ops[..|ops| - 1];
      assert front[..n] == ops[..n];
      RunEvolves(front, n, parsers);
      RunSound(front, parsers);
      StepSound(Run(front, parsers), ops[|ops| - 1], parsers);
      EvolvesOn(Run(ops[..n], parsers).assets, Run(front, parsers).assets, Run(ops, parsers).assets);
    }
  }

  ghost predicate Linked(s: Store, parent: string, child: string) {
    RelKey(parent, child, CONTAINS) in s.rels
  }

  ghost predicate IsPath(s: Store, path: seq<string>) {
    |path| >= 2 && forall i, j :: 0 <= i && i + 1 == j < |path| ==> Linked(s, path[i], path[j])
  }

  lemma {:induction false} PathClimbs(s: Store, path: seq<string>, parsers: Parsers)
    requires Sound(s, parsers) && IsPath(s, path)
    ensures path[0] in s.assets && path[|path| - 1] in s.assets
    ensures Layer(s.assets[path[0]].typ) + |path| - 1 <= Layer(s.assets[path[|path| - 1]].typ)
  {
    var n := |path|;
    assert Linked(s, path[n - 2], path[n - 1]);
    assert SoundLink(RelKey(path[n - 2], path[n - 1], CONTAINS), s.rels[RelKey(path[n - 2], path[n - 1], CONTAINS)],
                     s.assets);
    if n > 2 {
      var front := path[..n - 1];
      forall i, j | 0 <= i && i + 1 == j < n - 1 ensures Linked(s, front[i], front[j]) {
        assert Linked(s, path[i], path[j]);
      }
      PathClimbs(s, front, parsers);
    }
  }

  /** The containment graph of every run is acyclic, and no containment chain is longer than owner, URL, service. */
  lemma NoContainmentCycle(ops: seq<Op>, parsers: Parsers, path: seq<string>)
    requires IsPath(Run(ops, parsers), path)
    ensures path[0] != path[|path| - 1] && |path| <= 3
  {
    RunSound(ops, parsers);
    PathClimbs(Run(ops, parsers), path, parsers);
  }

  /** A successful ingestion answers the one stored asset of its canonical identity, whoever raced it. When it created the
      asset, the asset is stored as observed, together with everything derived from it and the links between them. */
  lemma IngestFindsItsAsset(s: Store, obs: Observation, now: Time, rivals: seq<Rival>, parsers: Parsers)
    requires Sound(s, parsers) && IngestStep(s, obs, now, rivals, parsers).answer.Kept?
    ensures Normalize(obs, parsers).Some?
    ensures var i, a := IngestStep(s, obs, now, rivals, parsers), Normalize(obs, parsers).value;
            && i.answer.asset.id == a.id && a.id in i.store.assets && i.store.assets[a.id] == i.answer.asset
            && (i.answer.created ==>
                  && a.id !in s.assets && i.answer.asset == a
                  && Materialized(i.store, a, Decompose(a, obs.source, now, parsers)))
  {
    var a := Normalize(obs, parsers).value;
    var raced := s.(assets := Rivals(s.assets, rivals, parsers));
    RivalsSound(s.assets, rivals, parsers);
    LinksEvolve(s.rels, s.assets, raced.assets);
    if a.id in s.assets {
      TouchAnswers(s, a.id, now, parsers);
    } else if CreateError(raced.assets, a, parsers).None? {
      var made := raced.(assets := Created(raced.assets, a, parsers));
      NormalizeNormalizes(obs, parsers);
      CreateSound(raced.assets, a, parsers);
      LinksEvolve(s.rels, raced.assets, made.assets);
      MaterializeCompletes(made, a, obs.source, now, parsers);
    } else {
      TouchAnswers(raced, a.id, now, parsers);
    }
  }

  lemma TouchAnswers(s: Store, id: string, now: Time, parsers: Parsers)
    requires SoundAssets(s.assets, parsers) && TouchStep(s, id, now, parsers).answer.Kept?
    ensures var t := TouchStep(s, id, now, parsers);
            !t.answer.created && t.answer.asset.id == id && id in t.store.assets && t.store.assets[id] == t.answer.asset
  {
    assert SoundAsset(id, s.assets[id], parsers);
  }

  /** A URL whose host is a domain name, not an address, always yields that domain as its owner, linked above it. */
  lemma DomainOwnsUrl(a: Asset, source: string, at: Time, parsers: Parsers)
    requires a.typ == URL && at != ZERO_TIME && parsers.hostPort(a.name).0 != ""
    requires Canonicalize(IP_ADDRESS, parsers.hostPort(a.name).0, parsers).None?
    requires CanonicalDomain(parsers.hostPort(a.name).0).Some?
    ensures var domain, parts := CanonicalDomain(parsers.hostPort(a.name).0).value, Decompose(a, source, at, parsers);
            && (exists d :: d in parts.assets && d.typ == DOMAIN && d.name == domain && d.id == IdFor(DOMAIN, domain))
            && Link(IdFor(DOMAIN, domain), a.id, source, at) in parts.rels
  {
    var (host, port) := parsers.hostPort(a.name);
    var domain := CanonicalDomain(host).value;
    DomainIdempotent(host);
    DomainChars(host);
    DerivedSource(source);
    var owner, service := DeriveHost(a, host, source, at, parsers), DeriveService(a, host, port, source, at, parsers);
    assert owner.Some? && owner.value.name == domain && owner.value.id == IdFor(DOMAIN, domain);
    SortedAssets(owner, service);
    var links := OwnerLinks(owner, a, source, at) + ServiceLinks(service, a, source, at);
    SortByKeeps(links, RelLe);
    MembersOfPermutation(SortBy(links, RelLe), links);
    assert links[0] == Link(IdFor(DOMAIN, domain), a.id, source, at);
    assert owner.value in SortBy(Present(owner) + Present(service), AssetLe);
  }

  // The source of a derived asset is never blank.
  lemma DerivedSource(source: string)
    ensures Trim(source + " (derived)") != ""
  {
    var s := source + " (derived)";
    TrimLeftEnds(s);
    TrimRightEnds(TrimLeft(s));
  }

  lemma {:induction false} TrimLeftEnds(s: string)
    requires s != "" && !IsSpace(s[|s| - 1])
    ensures TrimLeft(s) != "" && !IsSpace(TrimLeft(s)[|TrimLeft(s)| - 1])
  {
    if IsSpace(s[0]) {
      TrimLeftEnds(s[1..]);
    }
  }

  lemma TrimRightEnds(s: string)
    requires s != "" && !IsSpace(s[|s| - 1])
    ensures TrimRight(s) == s
  {
  }

  // ---------------------------------------------------------------------------
  // When an ingestion succeeds
  // ---------------------------------------------------------------------------

  lemma {:induction false} CreateAllOutcome(assets: Assets, list: seq<Asset>, parsers: Parsers)
    ensures CreateAll(assets, list, parsers).error.None? <==> forall a :: a in list ==> Storable(a, parsers)
  {
    if list != [] {
      var front, a := list[..|list| - 1], list[|list| - 1];
      assert forall x :: x in list <==> x in front || x == a;
      CreateAllOutcome(assets, front, parsers);
    }
  }

  lemma {:induction false} AppendAllOutcome(rels: Rels, list: seq<Relationship>)
    ensures AppendAll(rels, list).error.None? <==> forall r :: r in list ==> ValidRelationship(r)
  {
    if list != [] {
      var front, r := list[..|list| - 1], list[|list| - 1];
      assert forall x :: x in list <==> x in front || x == r;
      AppendAllOutcome(rels, front);
    }
  }

  // Links between assets of different types are valid: their ids differ and are not empty.
  lemma LinkValid(t: AssetType, x: string, u: AssetType, y: string, source: string, at: Time)
    requires KnownType(t) && KnownType(u) && t != u && source != "" && at != ZERO_TIME
    ensures ValidRelationship(Link(IdFor(t, x), IdFor(u, y), source, at))
  {
    if IdFor(t, x) == IdFor(u, y) {
      IdForInjective(t, x, u, y);
    }
  }

  lemma LinksValid(a: Asset, source: string, at: Time, parsers: Parsers)
    requires Normalized(a) && source != "" && at != ZERO_TIME
    ensures forall r :: r in Decompose(a, source, at, parsers).rels ==> ValidRelationship(r)
  {
    var (host, port) := parsers.hostPort(a.name);
    if a.typ == URL && host != "" {
      var owner, service := DeriveHost(a, host, source, at, parsers), DeriveService(a, host, port, source, at, parsers);
      HostFacts(a, host, source, at, parsers);
      ServiceFacts(a, host, port, source, at, parsers);
      TwoLinksValid(owner, service, a, source, at);
    }
  }

  lemma TwoLinksValid(owner: Option<Asset>, service: Option<Asset>, a: Asset, source: string, at: Time)
    requires Normalized(a) && a.typ == URL && source != "" && at != ZERO_TIME
    requires owner.Some? ==> Normalized(owner.value) && (owner.value.typ == DOMAIN || owner.value.typ == IP_ADDRESS)
    requires service.Some? ==> Normalized(service.value) && service.value.typ == SERVICE
    ensures forall r :: r in SortBy(OwnerLinks(owner, a, source, at) + ServiceLinks(service, a, source, at), RelLe)
              ==> ValidRelationship(r)
  {
    var links := OwnerLinks(owner, a, source, at) + ServiceLinks(service, a, source, at);
    SortByKeeps(links, RelLe);
    MembersOfPermutation(SortBy(links, RelLe), links);
    if owner.Some? {
      LinkValid(owner.value.typ, owner.value.name, a.typ, a.name, source, at);
    }
    if service.Some? {
      LinkValid(a.typ, a.name, service.value.typ, service.value.name, source, at);
    }
  }

  ghost predicate AllStorable(list: seq<Asset>, parsers: Parsers) {
    forall d :: d in list ==> Storable(d, parsers)
  }

  lemma MaterializeOutcome(s: Store, a: Asset, source: string, now: Time, parsers: Parsers)
    requires Sound(s, parsers) && a.id in s.assets && s.assets[a.id] == a
    requires Normalized(a) && source != "" && now != ZERO_TIME
    ensures Materialize(s, a, source, now, parsers).answer.Kept?
       <==> AllStorable(Decompose(a, source, now, parsers).assets, parsers)
  {
    var parts := Decompose(a, source, now, parsers);
    DecomposeFacts(a, source, now, parsers);
    CreateAllOutcome(s.assets, parts.assets, parsers);
    CreateAllSound(s.assets, parts.assets, parsers);
    AppendAllOutcome(s.rels, parts.rels);
    LinksValid(a, source, now, parsers);
    assert SoundAsset(a.id, CreateAll(s.assets, parts.assets, parsers).assets[a.id], parsers);
  }

  lemma TouchOutcome(s: Store, id: string, now: Time, parsers: Parsers)
    requires SoundAssets(s.assets, parsers) && id in s.assets && now != ZERO_TIME
    ensures TouchStep(s, id, now, parsers).answer.Kept? <==> s.assets[id].firstSeen.value <= now
  {
    assert SoundAsset(id, s.assets[id], parsers);
    SaveSound(s.assets, Touch(s.assets[id], now).value, parsers);
  }

  // What a sound store already holds could be created anew.
  lemma HeldIsStorable(assets: Assets, a: Asset, parsers: Parsers)
    requires SoundAssets(assets, parsers) && a.id in assets && Normalized(a) && ValidAsset(a)
    ensures Storable(a, parsers)
  {
    assert SoundAsset(a.id, assets[a.id], parsers);
    IdForInjective(assets[a.id].typ, assets[a.id].name, a.typ, a.name);
  }

  // The assets an ingestion finds when it writes.
  function Held(s: Store, id: string, rivals: seq<Rival>, parsers: Parsers): Assets {
    if id in s.assets then s.assets else Rivals(s.assets, rivals, parsers)
  }

  ghost predicate Completes(s: Store, obs: Observation, now: Time, rivals: seq<Rival>, parsers: Parsers)
    requires Normalize(obs, parsers).Some?
  {
    var a := Normalize(obs, parsers).value;
    var held := Held(s, a.id, rivals, parsers);
    if a.id in held then held[a.id].firstSeen.Some? && held[a.id].firstSeen.value <= now
    else Storable(a, parsers) && AllStorable(Decompose(a, obs.source, now, parsers).assets, parsers)
  }

  /** When an ingestion succeeds. Of an asset that is stored by the time it writes: exactly when the clock is not before the
      first sighting. Of a new one: exactly when it and all assets derived from it pass the repository's checks. */
  lemma IngestOutcome(s: Store, obs: Observation, now: Time, rivals: seq<Rival>, parsers: Parsers)
    requires Sound(s, parsers)
    ensures IngestStep(s, obs, now, rivals, parsers).answer.Kept? <==>
              now != ZERO_TIME && Normalize(obs, parsers).Some? && Completes(s, obs, now, rivals, parsers)
  {
    if now == ZERO_TIME || Normalize(obs, parsers).None? {
      return;
    }
    var a := Normalize(obs, parsers).value;
    var raced := s.(assets := Rivals(s.assets, rivals, parsers));
    NormalizeNormalizes(obs, parsers);
    RivalsSound(s.assets, rivals, parsers);
    if a.id in s.assets {
      TouchOutcome(s, a.id, now, parsers);
      assert SoundAsset(a.id, s.assets[a.id], parsers);
    } else if a.id in raced.assets {
      HeldIsStorable(raced.assets, a, parsers);
      TouchOutcome(raced, a.id, now, parsers);
      assert SoundAsset(a.id, raced.assets[a.id], parsers);
    } else {
      NewIngestOutcome(s, raced, a, obs.source, now, parsers);
    }
  }

  lemma NewIngestOutcome(s: Store, raced: Store, a: Asset, source: string, now: Time, parsers: Parsers)
    requires Sound(s, parsers) && SoundAssets(raced.assets, parsers) && Evolves(s.assets, raced.assets)
    requires raced.rels == s.rels && a.id !in raced.assets && Normalized(a) && source != "" && now != ZERO_TIME
    ensures CreateError(raced.assets, a, parsers) == if Storable(a, parsers) then None else Some(ErrInvalid)
    ensures var made := raced.(assets := Created(raced.assets, a, parsers));
            Storable(a, parsers) ==>
              Materialize(made, a, source, now, parsers).answer.Kept?
                == AllStorable(Decompose(a, source, now, parsers).assets, parsers)
  {
    LinksEvolve(s.rels, s.assets, raced.assets);
    CreateSound(raced.assets, a, parsers);
    if Storable(a, parsers) {
      var made := raced.(assets := Created(raced.assets, a, parsers));
      LinksEvolve(s.rels, raced.assets, made.assets);
      MaterializeOutcome(made, a, source, now, parsers);
    }
  }

  // Parsers whose results are their own canonical form.
  ghost predicate Stable(parsers: Parsers) {
    && (forall s :: parsers.ip(s).Some? ==> parsers.ip(Trim(parsers.ip(s).value)) == parsers.ip(s))
    && (forall s :: parsers.url(s).Some? ==> parsers.url(Trim(parsers.url(s).value)) == parsers.url(s))
    && (forall s :: parsers.service(s).Some? ==> parsers.service(Trim(parsers.service(s).value)) == parsers.service(s))
  }

  lemma StableIsStorable(obs: Observation, parsers: Parsers)
    requires Stable(parsers) && Normalize(obs, parsers).Some?
    ensures Storable(Normalize(obs, parsers).value, parsers)
  {
    if obs.typ != IP_ADDRESS && obs.typ != URL && obs.typ != SERVICE {
      CanonicalIdempotent(obs.typ, obs.raw, parsers);
    }
  }

  lemma StableDerives(a: Asset, source: string, at: Time, parsers: Parsers)
    requires Stable(parsers)
    ensures AllStorable(Decompose(a, source, at, parsers).assets, parsers)
  {
    var (host, port) := parsers.hostPort(a.name);
    if at != ZERO_TIME && a.typ == URL && host != "" {
      var owner, service := DeriveHost(a, host, source, at, parsers), DeriveService(a, host, port, source, at, parsers);
      StableDerived(a, host, port, source, at, parsers);
      SortedAssets(owner, service);
    }
  }

  lemma StableDerived(a: Asset, host: string, port: string, source: string, at: Time, parsers: Parsers)
    requires Stable(parsers)
    ensures var owner := DeriveHost(a, host, source, at, parsers); owner.Some? ==> Storable(owner.value, parsers)
    ensures var service := DeriveService(a, host, port, source, at, parsers);
            service.Some? ==> Storable(service.value, parsers)
  {
    forall t: AssetType, canonical: string | Derive(a, t, canonical, source, at, parsers).Some?
      ensures Storable(Derive(a, t, canonical, source, at, parsers).value, parsers)
    {
      StableIsStorable(DerivedFrom(a, t, canonical, source, at), parsers);
    }
  }

  // Then a first ingestion always completes.
  lemma StableFirstIngestion(s: Store, obs: Observation, now: Time, rivals: seq<Rival>, parsers: Parsers)
    requires Sound(s, parsers) && Stable(parsers) && now != ZERO_TIME && Normalize(obs, parsers).Some?
    requires Normalize(obs, parsers).value.id !in Held(s, Normalize(obs, parsers).value.id, rivals, parsers)
    ensures IngestStep(s, obs, now, rivals, parsers).answer.Kept?
  {
    IngestOutcome(s, obs, now, rivals, parsers);
    StableIsStorable(obs, parsers);
    StableDerives(Normalize(obs, parsers).value, obs.source, now, parsers);
  }

  // A re-observation succeeds exactly when the clock has not fallen behind the first sighting. It then sets the last
  // sighting to the clock, which moves it backwards when the clock is behind it.
  lemma ReobservationOutcome(s: Store, obs: Observation, now: Time, rivals: seq<Rival>, parsers: Parsers)
    requires Sound(s, parsers) && now != ZERO_TIME && Normalize(obs, parsers).Some?
    requires Normalize(obs, parsers).value.id in s.assets
    ensures var id, i := Normalize(obs, parsers).value.id, IngestStep(s, obs, now, rivals, parsers);
            && (i.answer.Kept? <==> s.assets[id].firstSeen.value <= now)
            && (i.answer.Kept? ==>
                  && !i.answer.created && i.store.assets[id].lastSeen == Some(now)
                  && i.store.assets[id].status == (if s.assets[id].status == RETIRED then RETIRED else ACTIVE))
            && i.store.assets.Keys == s.assets.Keys && i.store.rels == s.rels
  {
    var id := Normalize(obs, parsers).value.id;
    var a := Touch(s.assets[id], now).value;
    assert SoundAsset(id, s.assets[id], parsers);
    SaveSound(s.assets, a, parsers);
  }

  // A status change succeeds exactly on a legal step with a clock not before the first sighting, and changes nothing else.
  lemma MoveOutcome(s: Store, id: string, to: Status, now: Time, parsers: Parsers)
    requires Sound(s, parsers) && id in s.assets
    ensures var m, a := MoveStep(s, id, to, now, parsers), s.assets[id];
            && (m.answer.Kept? <==>
                  to in NextStates(a.status) && to != UNSPECIFIED && now != ZERO_TIME && a.firstSeen.value <= now)
            && m.store == (if m.answer.Kept? then s.(assets := s.assets[id := a.(status := to, lastSeen := Some(now))])
                           else s)
  {
    assert SoundAsset(id, s.assets[id], parsers);
    if Transition(s.assets[id], to, now).Some? {
      SaveSound(s.assets, Transition(s.assets[id], to, now).value, parsers);
    }
  }

  // A status change that lands between another writer's read and its save is lost, and RETIRED with it.
  lemma StaleSaveRevives(assets: Assets, id: string, moved: Time, touched: Time, parsers: Parsers)
    requires SoundAssets(assets, parsers) && id in assets && assets[id].status == ACTIVE
    requires moved != ZERO_TIME && touched != ZERO_TIME
    requires assets[id].firstSeen.value <= moved && assets[id].firstSeen.value <= touched
    ensures var stale := Touch(assets[id], touched).value;
            var retired := Saved(assets, Transition(assets[id], RETIRED, moved).value, parsers);
            && retired[id].status == RETIRED
            && SaveError(retired, stale, parsers).None? && Saved(retired, stale, parsers)[id].status == ACTIVE
  {
    var moving, stale := Transition(assets[id], RETIRED, moved).value, Touch(assets[id], touched).value;
    assert SoundAsset(id, assets[id], parsers);
    SaveSound(assets, moving, parsers);
    SaveSound(assets, stale, parsers);
    var retired := Saved(assets, moving, parsers);
    forall x | x in retired && SameIdentity(retired[x], stale) ensures x == id {
      assert SameIdentity(assets[x], assets[id]);
      IdentityUnique(assets, parsers, x, id);
    }
  }
}
