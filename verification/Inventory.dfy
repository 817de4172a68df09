/** The asset inventory: normalized assets, their lifecycle, the in-memory repositories and one ingestion over them. */
module Inventory {
  import opened Base
  import opened Text
  import opened Canonical

  // ---------------------------------------------------------------------------
  // Assets and relationships
  // ---------------------------------------------------------------------------

  type Status = int
  const UNSPECIFIED: Status := 0
  const DISCOVERED: Status := 1
  const ACTIVE: Status := 2
  const STALE: Status := 3
  const RETIRED: Status := 4

  datatype Asset = Asset(
    id: string, typ: AssetType, name: string, environment: string, status: Status,
    firstSeen: Option<Time>, lastSeen: Option<Time>, attributes: map<string, string>)

  predicate ValidAsset(a: Asset) {
    && a.id != "" && KnownType(a.typ) && a.name != ""
    && UNSPECIFIED <= a.status <= RETIRED
    && (a.lastSeen.Some? ==> a.firstSeen.Some?)
    && (a.firstSeen.Some? && a.lastSeen.Some? ==> a.firstSeen.value <= a.lastSeen.value)
  }

  predicate StrictType(t: AssetType) {
    t == DOMAIN || t == IP_ADDRESS || t == URL || t == HOST || t == SERVICE
  }

  // A strict type's name must be its own canonical form.
  predicate CheckCanonical(a: Asset, parsers: Parsers) {
    StrictType(a.typ) ==> Canonicalize(a.typ, a.name, parsers) == Some(a.name)
  }

  datatype Observation = Observation(
    source: string, typ: AssetType, raw: string, observedAt: Time, environment: string,
    attributes: map<string, string>)

  // None is a refused observation.
  function Normalize(obs: Observation, parsers: Parsers): Option<Asset> {
    if Trim(obs.source) == "" || !KnownType(obs.typ) then None
    else
      match Canonicalize(obs.typ, obs.raw, parsers)
      case None => None
      case Some(canonical) =>
        if obs.observedAt == ZERO_TIME then None
        else
          var a := Asset(IdFor(obs.typ, canonical), obs.typ, canonical, Trim(obs.environment), DISCOVERED,
                         Some(obs.observedAt), Some(obs.observedAt), obs.attributes);
          if ValidAsset(a) then Some(a) else None
  }

  // Normalized domains and hosts always pass the repository's check.
  lemma NormalizedIsCanonical(obs: Observation, parsers: Parsers)
    requires Normalize(obs, parsers).Some?
    requires obs.typ != IP_ADDRESS && obs.typ != URL && obs.typ != SERVICE
    ensures CheckCanonical(Normalize(obs, parsers).value, parsers)
  {
    CanonicalIdempotent(obs.typ, obs.raw, parsers);
  }

  const CONTAINS: string := "CONTAINS"

  datatype Relationship = Relationship(parent: string, child: string, kind: string, source: string, observedAt: Time)

  predicate ValidRelationship(r: Relationship) {
    && r.parent != "" && r.child != "" && r.parent != r.child
    && r.kind in ["CONTAINS", "COMMUNICATES_WITH", "EXPOSES", "SERVED_BY", "RUNS", "HOSTED_ON", "PART_OF",
                  "BELONGS_TO", "ACCESSES", "MEMBER_OF", "ASSUMES", "AUTHENTICATES_TO"]
    && r.source != "" && r.observedAt != ZERO_TIME
  }

  // ---------------------------------------------------------------------------
  // Lifecycle
  // ---------------------------------------------------------------------------

  function NextStates(from: Status): seq<Status> {
    if from == UNSPECIFIED || from == DISCOVERED then [ACTIVE]
    else if from == ACTIVE then [STALE, RETIRED]
    else if from == STALE then [ACTIVE, RETIRED]
    else []
  }

  // None is ErrLifecycle.
  function Transition(a: Asset, to: Status, now: Time): Option<Asset> {
    if to == UNSPECIFIED || to !in NextStates(a.status) || now == ZERO_TIME then None
    else Some(a.(status := to, lastSeen := Some(now)))
  }

  function Touch(a: Asset, now: Time): Option<Asset> {
    if now == ZERO_TIME then None
    else
      Some(a.(lastSeen := Some(now),
              status := if a.status in {STALE, DISCOVERED, UNSPECIFIED} then ACTIVE else a.status))
  }

  // What every write to a stored asset must respect.
  ghost predicate Successor(before: Asset, after: Asset) {
    && after.id == before.id && after.typ == before.typ && after.name == before.name
    && after.firstSeen == before.firstSeen
    && (before.status == RETIRED ==> after.status == RETIRED)
    && (after.status == DISCOVERED ==> before.status == DISCOVERED)
  }

  lemma LifecycleMoves(a: Asset, to: Status, now: Time)
    ensures Touch(a, now).Some? ==> Successor(a, Touch(a, now).value)
    ensures Transition(a, to, now).Some? ==> Successor(a, Transition(a, to, now).value)
    ensures a.status == RETIRED ==> Transition(a, to, now).None?
  {
  }

  // ---------------------------------------------------------------------------
  // Repositories
  // ---------------------------------------------------------------------------

  datatype StoreError = ErrInvalid | ErrDuplicate | ErrNotFound

  datatype RelKey = RelKey(parent: string, child: string, kind: string)

  type Assets = map<string, Asset>

  type Rels = map<RelKey, Relationship>

  predicate Storable(a: Asset, parsers: Parsers) {
    ValidAsset(a) && CheckCanonical(a, parsers)
  }

  predicate SameIdentity(a: Asset, b: Asset) {
    a.typ == b.typ && a.name == b.name
  }

  function CreateError(assets: Assets, a: Asset, parsers: Parsers): Option<StoreError> {
    if !Storable(a, parsers) then Some(ErrInvalid)
    else if a.id in assets || exists id | id in assets :: SameIdentity(assets[id], a) then Some(ErrDuplicate)
    else None
  }

  function SaveError(assets: Assets, a: Asset, parsers: Parsers): Option<StoreError> {
    if !Storable(a, parsers) then Some(ErrInvalid)
    else if a.id !in assets then Some(ErrNotFound)
    else if exists id | id in assets :: id != a.id && SameIdentity(assets[id], a) then Some(ErrDuplicate)
    else None
  }

  function Created(assets: Assets, a: Asset, parsers: Parsers): Assets {
    if CreateError(assets, a, parsers).None? then assets[a.id := a] else assets
  }

  function Saved(assets: Assets, a: Asset, parsers: Parsers): Assets {
    if SaveError(assets, a, parsers).None? then assets[a.id := a] else assets
  }

  function KeyOf(r: Relationship): RelKey {
    RelKey(r.parent, r.child, r.kind)
  }

  function AppendError(rels: Rels, r: Relationship): Option<StoreError> {
    if !ValidRelationship(r) then Some(ErrInvalid)
    else if KeyOf(r) in rels then Some(ErrDuplicate)
    else None
  }

  function Appended(rels: Rels, r: Relationship): Rels {
    if AppendError(rels, r).None? then rels[KeyOf(r) := r] else rels
  }

  // ---------------------------------------------------------------------------
  // Decomposition
  // ---------------------------------------------------------------------------

  datatype Parts = Parts(assets: seq<Asset>, rels: seq<Relationship>)

  predicate AssetLe(a: Asset, b: Asset) {
    StrLe(a.id, b.id)
  }

  predicate RelLe(r: Relationship, s: Relationship) {
    if r.parent != s.parent then StrLe(r.parent, s.parent) else StrLe(r.child, s.child)
  }

  function DerivedFrom(a: Asset, t: AssetType, canonical: string, source: string, at: Time): Observation {
    Observation(source + " (derived)", t, canonical, at, a.environment,
                map["blueveil.derived_from" := a.id, "blueveil.derivation" := "url-host-decomposition"])
  }

  function Derive(a: Asset, t: AssetType, canonical: string, source: string, at: Time, parsers: Parsers): Option<Asset>
  {
    Normalize(DerivedFrom(a, t, canonical, source, at), parsers)
  }

  function DeriveHost(a: Asset, host: string, source: string, at: Time, parsers: Parsers): Option<Asset> {
    match Canonicalize(IP_ADDRESS, host, parsers)
    case Some(ip) => Derive(a, IP_ADDRESS, ip, source, at, parsers)
    case None =>
      match Canonicalize(DOMAIN, host, parsers)
      case Some(domain) => Derive(a, DOMAIN, domain, source, at, parsers)
      case None => None
  }

  function DeriveService(a: Asset, host: string, port: string, source: string, at: Time, parsers: Parsers)
    : Option<Asset>
  {
    if port == "" then None
    else
      match Canonicalize(SERVICE, host + ":" + port, parsers)
      case Some(service) => Derive(a, SERVICE, service, source, at, parsers)
      case None => None
  }

  function Link(parent: string, child: string, source: string, at: Time): Relationship {
    Relationship(parent, child, CONTAINS, source, at)
  }

  function Present(derived: Option<Asset>): seq<Asset> {
    if derived.Some? then [derived.value] else []
  }

  function OwnerLinks(owner: Option<Asset>, a: Asset, source: string, at: Time): seq<Relationship> {
    if owner.Some? then [Link(owner.value.id, a.id, source, at)] else []
  }

  function ServiceLinks(service: Option<Asset>, a: Asset, source: string, at: Time): seq<Relationship> {
    if service.Some? then [Link(a.id, service.value.id, source, at)] else []
  }

  function Decompose(a: Asset, source: string, at: Time, parsers: Parsers): Parts {
    if at == ZERO_TIME || a.typ != URL then Parts([], [])
    else
      var (host, port) := parsers.hostPort(a.name);
      if host == "" then Parts([], [])
      else
        var owner, service := DeriveHost(a, host, source, at, parsers), DeriveService(a, host, port, source, at, parsers);
        Parts(SortBy(Present(owner) + Present(service), AssetLe),
              SortBy(OwnerLinks(owner, a, source, at) + ServiceLinks(service, a, source, at), RelLe))
  }

  // ---------------------------------------------------------------------------
  // One ingestion
  // ---------------------------------------------------------------------------

  datatype Store = Store(assets: Assets, rels: Rels)

  datatype IngestError = ErrClock | ErrObservation | ErrLifecycle | ErrStore(cause: StoreError) | ErrInvalidRecord

  datatype Answer = Kept(asset: Asset, created: bool) | Failed(error: IngestError)

  datatype Ingested = Ingested(store: Store, answer: Answer)

  function TouchStep(s: Store, id: string, now: Time, parsers: Parsers): Ingested {
    if id !in s.assets then Ingested(s, Failed(ErrStore(ErrNotFound)))
    else
      match Touch(s.assets[id], now)
      case None => Ingested(s, Failed(ErrLifecycle))
      case Some(a) =>
        match SaveError(s.assets, a, parsers)
        case Some(e) => Ingested(s, Failed(ErrStore(e)))
        case None => Ingested(s.(assets := Saved(s.assets, a, parsers)), Kept(a, false))
  }

  // Creating in order, duplicates passed over, stopping at the first other failure.
  datatype Creating = Creating(assets: Assets, error: Option<StoreError>)

  function CreateAll(assets: Assets, list: seq<Asset>, parsers: Parsers): Creating {
    if list == [] then Creating(assets, None)
    else
      var was, a := CreateAll(assets, list[..|list| - 1], parsers), list[|list| - 1];
      if was.error.Some? then was
      else
        var e := CreateError(was.assets, a, parsers);
        Creating(Created(was.assets, a, parsers), if e == Some(ErrDuplicate) then None else e)
  }

  datatype Appending = Appending(rels: Rels, error: Option<StoreError>)

  function AppendAll(rels: Rels, list: seq<Relationship>): Appending {
    if list == [] then Appending(rels, None)
    else
      var was, r := AppendAll(rels, list[..|list| - 1]), list[|list| - 1];
      if was.error.Some? then was
      else
        var e := AppendError(was.rels, r);
        Appending(Appended(was.rels, r), if e == Some(ErrDuplicate) then None else e)
  }

  // Another writer of the same repositories, between this ingestion's lookup and its create.
  datatype Rival =
    | Creates(obs: Observation)
    | Touches(id: string, now: Time)
    | Moves(id: string, to: Status, now: Time)

  function RivalStep(assets: Assets, rival: Rival, parsers: Parsers): Assets {
    match rival
    case Creates(obs) =>
      var a := Normalize(obs, parsers);
      if a.Some? then Created(assets, a.value, parsers) else assets
    case Touches(id, now) => TouchStep(Store(assets, map[]), id, now, parsers).store.assets
    case Moves(id, to, now) => MoveStep(Store(assets, map[]), id, to, now, parsers).store.assets
  }

  function Rivals(assets: Assets, rivals: seq<Rival>, parsers: Parsers): Assets {
    if rivals == [] then assets
    else RivalStep(Rivals(assets, rivals[..|rivals| - 1], parsers), rivals[|rivals| - 1], parsers)
  }

  function Materialize(s: Store, candidate: Asset, source: string, now: Time, parsers: Parsers): Ingested {
    var parts := Decompose(candidate, source, now, parsers);
    var derived := CreateAll(s.assets, parts.assets, parsers);
    if derived.error.Some? then Ingested(s.(assets := derived.assets), Failed(ErrStore(derived.error.value)))
    else
      var linked := AppendAll(s.rels, parts.rels);
      var s' := Store(derived.assets, linked.rels);
      if linked.error.Some? then Ingested(s', Failed(ErrStore(linked.error.value)))
      else if candidate.id !in s'.assets then Ingested(s', Failed(ErrStore(ErrNotFound)))
      else if !ValidAsset(s'.assets[candidate.id]) then Ingested(s', Failed(ErrInvalidRecord))
      else Ingested(s', Kept(s'.assets[candidate.id], true))
  }

  function IngestStep(s: Store, obs: Observation, now: Time, rivals: seq<Rival>, parsers: Parsers): Ingested {
    if now == ZERO_TIME then Ingested(s, Failed(ErrClock))
    else
      match Normalize(obs, parsers)
      case None => Ingested(s, Failed(ErrObservation))
      case Some(candidate) =>
        if candidate.id in s.assets then TouchStep(s, candidate.id, now, parsers)
        else
          var raced := s.(assets := Rivals(s.assets, rivals, parsers));
          match CreateError(raced.assets, candidate, parsers)
          case Some(e) =>
            if e == ErrDuplicate then TouchStep(raced, candidate.id, now, parsers)
            else Ingested(raced, Failed(ErrStore(e)))
          case None =>
            Materialize(raced.(assets := Created(raced.assets, candidate, parsers)), candidate, obs.source, now, parsers)
  }

  // The API's status change: read, move, save.
  function MoveStep(s: Store, id: string, to: Status, now: Time, parsers: Parsers): Ingested {
    if id !in s.assets then Ingested(s, Failed(ErrStore(ErrNotFound)))
    else
      match Transition(s.assets[id], to, now)
      case None => Ingested(s, Failed(ErrLifecycle))
      case Some(a) =>
        match SaveError(s.assets, a, parsers)
        case Some(e) => Ingested(s, Failed(ErrStore(e)))
        case None => Ingested(s.(assets := Saved(s.assets, a, parsers)), Kept(a, false))
  }

  // ---------------------------------------------------------------------------
  // The in-memory repositories and the manager
  // ---------------------------------------------------------------------------

  class AssetRepository {
    const parsers: Parsers
    var items: Assets

    constructor (parsers: Parsers)
      ensures this.parsers == parsers && items == map[]
    {
      this.parsers := parsers;
      items := map[];
    }

    // Whether some other stored asset already holds the identity.
    method Taken(a: Asset, except: set<string>) returns (taken: bool)
      ensures taken == exists id :: id in items && id !in except && SameIdentity(items[id], a)
    {
      var rest := items.Keys;
      while rest != {}
        invariant rest <= items.Keys
        invariant forall id :: id in items && id !in rest && id !in except ==> !SameIdentity(items[id], a)
        decreases rest
      {
        var id :| id in rest;
        if id !in except && SameIdentity(items[id], a) {
          return true;
        }
        rest := rest - {id};
      }
      return false;
    }

    method Create(a: Asset) returns (error: Option<StoreError>)
      modifies this
      ensures error == CreateError(old(items), a, parsers)
      ensures items == Created(old(items), a, parsers)
    {
      if !ValidAsset(a) || !CheckCanonical(a, parsers) {
        return Some(ErrInvalid);
      }
      if a.id in items {
        return Some(ErrDuplicate);
      }
      var taken := Taken(a, {});
      if taken {
        return Some(ErrDuplicate);
      }
      items := items[a.id := a];
      return None;
    }

    method Save(a: Asset) returns (error: Option<StoreError>)
      modifies this
      ensures error == SaveError(old(items), a, parsers)
      ensures items == Saved(old(items), a, parsers)
    {
      if !ValidAsset(a) || !CheckCanonical(a, parsers) {
        return Some(ErrInvalid);
      }
      if a.id !in items {
        return Some(ErrNotFound);
      }
      var taken := Taken(a, {a.id});
      if taken {
        return Some(ErrDuplicate);
      }
      items := items[a.id := a];
      return None;
    }
  }

  class RelationshipRepository {
    var items: Rels

    constructor ()
      ensures items == map[]
    {
      items := map[];
    }

    method Append(r: Relationship) returns (error: Option<StoreError>)
      modifies this
      ensures error == AppendError(old(items), r)
      ensures items == Appended(old(items), r)
    {
      if !ValidRelationship(r) {
        return Some(ErrInvalid);
      }
      if KeyOf(r) in items {
        return Some(ErrDuplicate);
      }
      items := items[KeyOf(r) := r];
      return None;
    }
  }

  class Manager {
    const assets: AssetRepository
    const rels: RelationshipRepository

    ghost function Current(): Store
      reads this, assets, rels
    {
      Store(assets.items, rels.items)
    }

    constructor (parsers: Parsers)
      ensures Current() == Store(map[], map[]) && assets.parsers == parsers
    {
      assets := new AssetRepository(parsers);
      rels := new RelationshipRepository();
    }

    method Ingest(obs: Observation, now: Time, rivals: seq<Rival>) returns (r: Answer)
      modifies assets, rels
      ensures Ingested(Current(), r) == IngestStep(old(Current()), obs, now, rivals, assets.parsers)
    {
      if now == ZERO_TIME {
        return Failed(ErrClock);
      }
      var candidate := Normalize(obs, assets.parsers);
      if candidate.None? {
        return Failed(ErrObservation);
      }
      if candidate.value.id in assets.items {
        r := TouchStored(candidate.value.id, now);
        return;
      }
      Race(rivals);
      var error := assets.Create(candidate.value);
      if error == Some(ErrDuplicate) {
        r := TouchStored(candidate.value.id, now);
      } else if error.Some? {
        r := Failed(ErrStore(error.value));
      } else {
        r := Complete(candidate.value, obs.source, now);
      }
    }

    method TouchStored(id: string, now: Time) returns (r: Answer)
      modifies assets
      ensures Ingested(Current(), r) == TouchStep(old(Current()), id, now, assets.parsers)
    {
      if id !in assets.items {
        return Failed(ErrStore(ErrNotFound));
      }
      var touched := Touch(assets.items[id], now);
      if touched.None? {
        return Failed(ErrLifecycle);
      }
      var error := assets.Save(touched.value);
      if error.Some? {
        return Failed(ErrStore(error.value));
      }
      return Kept(touched.value, false);
    }

    method Race(rivals: seq<Rival>)
      modifies assets
      ensures assets.items == Rivals(old(assets.items), rivals, assets.parsers)
    {
      for i := 0 to |rivals|
        invariant assets.items == Rivals(old(assets.items), rivals[..i], assets.parsers)
      {
        assert rivals[..i + 1][..i] == rivals[..i];
        Interfere(rivals[i]);
      }
      assert rivals[..|rivals|] == rivals;
    }

    method Interfere(rival: Rival)
      modifies assets
      ensures assets.items == RivalStep(old(assets.items), rival, assets.parsers)
    {
      match rival {
        case Creates(obs) =>
          var a := Normalize(obs, assets.parsers);
          if a.Some? {
            var error := assets.Create(a.value);
          }
        case Touches(id, now) =>
          var answer := TouchStored(id, now);
        case Moves(id, to, now) =>
          var answer := Move(id, to, now);
      }
    }

    method CreateDerived(list: seq<Asset>) returns (error: Option<StoreError>)
      modifies assets
      ensures Creating(assets.items, error) == CreateAll(old(assets.items), list, assets.parsers)
    {
      for i := 0 to |list|
        invariant Creating(assets.items, None) == CreateAll(old(assets.items), list[..i], assets.parsers)
      {
        assert list[..i + 1][..i] == list[..i];
        error := assets.Create(list[i]);
        if error.Some? && error != Some(ErrDuplicate) {
          CreateStops(old(assets.items), list, i + 1, assets.parsers);
          return;
        }
      }
      assert list[..|list|] == list;
      return None;
    }

    method AppendDerived(list: seq<Relationship>) returns (error: Option<StoreError>)
      modifies rels
      ensures Appending(rels.items, error) == AppendAll(old(rels.items), list)
    {
      for i := 0 to |list|
        invariant Appending(rels.items, None) == AppendAll(old(rels.items), list[..i])
      {
        assert list[..i + 1][..i] == list[..i];
        error := rels.Append(list[i]);
        if error.Some? && error != Some(ErrDuplicate) {
          AppendStops(old(rels.items), list, i + 1);
          return;
        }
      }
      assert list[..|list|] == list;
      return None;
    }

    method Complete(candidate: Asset, source: string, now: Time) returns (r: Answer)
      modifies assets, rels
      ensures Ingested(Current(), r) == Materialize(old(Current()), candidate, source, now, assets.parsers)
    {
      var parts := Decompose(candidate, source, now, assets.parsers);
      var error := CreateDerived(parts.assets);
      if error.Some? {
        return Failed(ErrStore(error.value));
      }
      error := AppendDerived(parts.rels);
      if error.Some? {
        return Failed(ErrStore(error.value));
      }
      if candidate.id !in assets.items {
        return Failed(ErrStore(ErrNotFound));
      }
      if !ValidAsset(assets.items[candidate.id]) {
        return Failed(ErrInvalidRecord);
      }
      return Kept(assets.items[candidate.id], true);
    }

    method Move(id: string, to: Status, now: Time) returns (r: Answer)
      modifies assets
      ensures Ingested(Current(), r) == MoveStep(old(Current()), id, to, now, assets.parsers)
    {
      if id !in assets.items {
        return Failed(ErrStore(ErrNotFound));
      }
      var moved := Transition(assets.items[id], to, now);
      if moved.None? {
        return Failed(ErrLifecycle);
      }
      var error := assets.Save(moved.value);
      if error.Some? {
        return Failed(ErrStore(error.value));
      }
      return Kept(moved.value, false);
    }
  }

  lemma {:induction false} CreateStops(assets: Assets, list: seq<Asset>, n: nat, parsers: Parsers)
    requires n <= |list| && CreateAll(assets, list[..n], parsers).error.Some?
    ensures CreateAll(assets, list, parsers) == CreateAll(assets, list[..n], parsers)
  {
    if n < |list| {
      assert list[..|list| - 1][..n] == list[..n];
      CreateStops(assets, list[..|list| - 1], n, parsers);
    } else {
      assert list[..n] == list;
    }
  }

  lemma {:induction false} AppendStops(rels: Rels, list: seq<Relationship>, n: nat)
    requires n <= |list| && AppendAll(rels, list[..n]).error.Some?
    ensures AppendAll(rels, list) == AppendAll(rels, list[..n])
  {
    if n < |list| {
      assert list[..|list| - 1][..n] == list[..n];
      AppendStops(rels, list[..|list| - 1], n);
    } else {
      assert list[..n] == list;
    }
  }
}
