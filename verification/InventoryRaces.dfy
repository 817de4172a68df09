/** The inventory when a status change or a touch reads a record at one moment and saves it at a later one. */
module InventoryRaces {
  import opened Base
  import opened Text
  import opened Canonical
  import opened Inventory
  import R = InventoryRuns

  // ---------------------------------------------------------------------------
  // One late save
  // ---------------------------------------------------------------------------

  /** Saving a touched copy over the stored record is lawful exactly when the copy knows of a retirement the store knows. */
  lemma TouchLawful(stored: Asset, copy: Asset, now: Time)
    requires R.SameRecord(stored, copy) && now != ZERO_TIME
    ensures Successor(stored, Touch(copy, now).value) <==> (stored.status == RETIRED ==> copy.status == RETIRED)
  {
  }

  /** Saving a moved copy is lawful exactly when the store is not retired or the move retires it. */
  lemma MoveLawful(stored: Asset, copy: Asset, to: Status, now: Time)
    requires R.SameRecord(stored, copy) && Transition(copy, to, now).Some?
    ensures Successor(stored, Transition(copy, to, now).value) <==> (stored.status == RETIRED ==> to == RETIRED)
  {
  }

  // ---------------------------------------------------------------------------
  // Interleaved runs
  // ---------------------------------------------------------------------------

  // The repositories, and the copies that clients have read and not yet saved.
  datatype State = State(store: Store, copies: map<nat, Asset>)

  const NOTHING: State := State(Store(map[], map[]), map[])

  datatype Op =
    | Whole(op: R.Op)                                       // read and saved without anything in between
    | Read(client: nat, id: string)
    | SaveTouched(client: nat, now: Time)
    | SaveMoved(client: nat, to: Status, now: Time)

  // What a client would save.
  function Written(s: State, op: Op): Option<Asset> {
    match op
    case SaveTouched(k, now) => if k in s.copies then Touch(s.copies[k], now) else None
    case SaveMoved(k, to, now) => if k in s.copies then Transition(s.copies[k], to, now) else None
    case _ => None
  }

  function Step(s: State, op: Op, parsers: Parsers): State {
    match op
    case Whole(o) => s.(store := R.StepOf(s.store, o, parsers))
    case Read(k, id) => if id in s.store.assets then s.(copies := s.copies[k := s.store.assets[id]]) else s
    case _ =>
      var a := Written(s, op);
      if a.Some? then State(s.store.(assets := Saved(s.store.assets, a.value, parsers)), s.copies - {op.client}) else s
  }

  function Run(ops: seq<Op>, parsers: Parsers): State {
    if ops == [] then NOTHING else Step(Run(ops[..|ops| - 1], parsers), ops[|ops| - 1], parsers)
  }

  // Every copy is a version of a stored record.
  ghost predicate CopyOk(assets: Assets, copy: Asset) {
    && copy.id in assets && R.SameRecord(assets[copy.id], copy) && DISCOVERED <= copy.status <= RETIRED
  }

  ghost predicate Good(s: State, parsers: Parsers) {
    R.Sound(s.store, parsers) && forall k :: k in s.copies ==> CopyOk(s.store.assets, s.copies[k])
  }

  // What holds of a record whatever the interleaving: it stays, it stays the same record, and it is never rediscovered.
  ghost predicate Lasts(before: Assets, after: Assets) {
    forall id :: id in before ==>
      id in after && R.SameRecord(before[id], after[id])
      && (after[id].status == DISCOVERED ==> before[id].status == DISCOVERED)
  }

  lemma LastsCopies(before: Assets, after: Assets, copy: Asset)
    requires Lasts(before, after) && CopyOk(before, copy)
    ensures CopyOk(after, copy)
  {
  }

  lemma LastsLinks(rels: Rels, before: Assets, after: Assets)
    requires R.SoundLinks(rels, before) && Lasts(before, after)
    ensures R.SoundLinks(rels, after)
  {
  }

  // A version of a stored record, other than a discovered one, may be saved over it.
  lemma SaveLasts(s: Store, a: Asset, parsers: Parsers)
    requires R.Sound(s, parsers) && a.id in s.assets && R.SameRecord(s.assets[a.id], a)
    requires DISCOVERED < a.status <= RETIRED && a.lastSeen.Some?
    ensures R.Sound(s.(assets := Saved(s.assets, a, parsers)), parsers)
    ensures Lasts(s.assets, Saved(s.assets, a, parsers))
    ensures SaveError(s.assets, a, parsers).None? <==> a.firstSeen.value <= a.lastSeen.value
  {
    R.SaveVersion(s.assets, a, parsers);
    LastsLinks(s.rels, s.assets, Saved(s.assets, a, parsers));
  }

  lemma WrittenVersion(s: State, op: Op, parsers: Parsers)
    requires Good(s, parsers) && Written(s, op).Some?
    ensures var a := Written(s, op).value;
            && op.client in s.copies && a.id in s.store.assets && R.SameRecord(s.store.assets[a.id], a)
            && a.id == s.copies[op.client].id && DISCOVERED < a.status <= RETIRED && a.lastSeen == Some(op.now)
            && (a.status == RETIRED <==>
                  if op.SaveTouched? then s.copies[op.client].status == RETIRED else op.to == RETIRED)
  {
    assert CopyOk(s.store.assets, s.copies[op.client]);
  }

  lemma WholeLasts(s: Store, op: R.Op, parsers: Parsers)
    requires R.Sound(s, parsers)
    ensures R.Sound(R.StepOf(s, op, parsers), parsers) && Lasts(s.assets, R.StepOf(s, op, parsers).assets)
    ensures R.Evolves(s.assets, R.StepOf(s, op, parsers).assets)
  {
    R.StepSound(s, op, parsers);
  }

  lemma StepGood(s: State, op: Op, parsers: Parsers)
    requires Good(s, parsers)
    ensures Good(Step(s, op, parsers), parsers) && Lasts(s.store.assets, Step(s, op, parsers).store.assets)
  {
    var s' := Step(s, op, parsers);
    match op
    case Whole(o) =>
      WholeLasts(s.store, o, parsers);
      forall k | k in s'.copies ensures CopyOk(s'.store.assets, s'.copies[k]) {
        LastsCopies(s.store.assets, s'.store.assets, s.copies[k]);
      }
    case Read(k, id) =>
      if id in s.store.assets {
        assert R.SoundAsset(id, s.store.assets[id], parsers);
      }
    case _ =>
      if Written(s, op).Some? {
        WrittenVersion(s, op, parsers);
        SaveLasts(s.store, Written(s, op).value, parsers);
        forall k | k in s'.copies ensures CopyOk(s'.store.assets, s'.copies[k]) {
          LastsCopies(s.store.assets, s'.store.assets, s.copies[k]);
        }
      }
  }

  /** Every interleaving of whole calls, reads and saves keeps the inventory sound: ids, identities, first sightings and
      containment stand, and nothing is rediscovered. */
  lemma {:induction false} RunGood(ops: seq<Op>, parsers: Parsers)
    ensures Good(Run(ops, parsers), parsers)
  {
    if ops != [] {
      RunGood(ops[..|ops| - 1], parsers);
      StepGood(Run(ops[..|ops| - 1], parsers), ops[|ops| - 1], parsers);
    }
  }

  // ---------------------------------------------------------------------------
  // When retirement lasts
  // ---------------------------------------------------------------------------

  ghost predicate IsRetired(s: State, id: string) {
    id in s.store.assets && s.store.assets[id].status == RETIRED
  }

  // A save after a retirement that its read has missed, accepted by the store and not itself retiring.
  ghost predicate LandsLate(s: State, op: Op) {
    && (op.SaveTouched? || op.SaveMoved?) && op.client in s.copies
    && (var copy := s.copies[op.client];
        && IsRetired(s, copy.id) && copy.status != RETIRED
        && op.now != ZERO_TIME && s.store.assets[copy.id].firstSeen.Some?
        && s.store.assets[copy.id].firstSeen.value <= op.now
        && (op.SaveMoved? ==> op.to in NextStates(copy.status) && op.to != UNSPECIFIED && op.to != RETIRED))
  }

  lemma StepRetires(s: State, op: Op, parsers: Parsers)
    requires Good(s, parsers)
    ensures (forall id :: IsRetired(s, id) ==> IsRetired(Step(s, op, parsers), id)) <==> !LandsLate(s, op)
  {
    match op
    case Whole(o) => WholeLasts(s.store, o, parsers);
    case Read(k, id) =>
    case _ => SaveRetires(s, op, parsers);
  }

  lemma SaveRetires(s: State, op: Op, parsers: Parsers)
    requires Good(s, parsers) && (op.SaveTouched? || op.SaveMoved?)
    ensures (forall id :: IsRetired(s, id) ==> IsRetired(Step(s, op, parsers), id)) <==> !LandsLate(s, op)
  {
    if Written(s, op).Some? {
      WrittenVersion(s, op, parsers);
      var a, id := Written(s, op).value, s.copies[op.client].id;
      SaveLasts(s.store, a, parsers);
      assert CopyOk(s.store.assets, s.copies[op.client]);
      assert R.SoundAsset(id, s.store.assets[id], parsers);
      assert LandsLate(s, op) ==> IsRetired(s, id) && !IsRetired(Step(s, op, parsers), id);
    }
  }

  ghost predicate Absorbing(ops: seq<Op>, parsers: Parsers) {
    forall i, j, id :: 0 <= i <= j <= |ops| && IsRetired(Run(ops[..i], parsers), id)
      ==> IsRetired(Run(ops[..j], parsers), id)
  }

  ghost predicate NoneLate(ops: seq<Op>, parsers: Parsers) {
    forall n :: 0 <= n < |ops| ==> !LandsLate(Run(ops[..n], parsers), ops[n])
  }

  lemma OneMoreOp(ops: seq<Op>, n: nat, parsers: Parsers)
    requires n < |ops|
    ensures Run(ops[..n + 1], parsers) == Step(Run(ops[..n], parsers), ops[n], parsers)
  {
    assert ops[..n + 1][..n] == ops[..n];
  }

  lemma {:induction false} StaysRetired(ops: seq<Op>, i: nat, j: nat, id: string, parsers: Parsers)
    requires NoneLate(ops, parsers) && i <= j <= |ops| && IsRetired(Run(ops[..i], parsers), id)
    ensures IsRetired(Run(ops[..j], parsers), id)
    decreases j
  {
    if i < j {
      StaysRetired(ops, i, j - 1, id, parsers);
      OneMoreOp(ops, j - 1, parsers);
      RunGood(ops[..j - 1], parsers);
      StepRetires(Run(ops[..j - 1], parsers), ops[j - 1], parsers);
    }
  }

  /** RETIRED is absorbing in a run exactly when no save lands after a retirement its read has missed. */
  lemma RetiredAbsorbs(ops: seq<Op>, parsers: Parsers)
    ensures Absorbing(ops, parsers) <==> NoneLate(ops, parsers)
  {
    if NoneLate(ops, parsers) {
      forall i, j, id | 0 <= i <= j <= |ops| && IsRetired(Run(ops[..i], parsers), id)
        ensures IsRetired(Run(ops[..j], parsers), id)
      {
        StaysRetired(ops, i, j, id, parsers);
      }
    }
    if Absorbing(ops, parsers) {
      forall n | 0 <= n < |ops| ensures !LandsLate(Run(ops[..n], parsers), ops[n]) {
        OneMoreOp(ops, n, parsers);
        RunGood(ops[..n], parsers);
        StepRetires(Run(ops[..n], parsers), ops[n], parsers);
        forall id | IsRetired(Run(ops[..n], parsers), id) ensures IsRetired(Run(ops[..n + 1], parsers), id) {
        }
      }
    }
  }

  // Without separate reads and saves nothing can land late.
  lemma WholeRunsAbsorb(ops: seq<Op>, parsers: Parsers)
    requires forall op :: op in ops ==> op.Whole?
    ensures Absorbing(ops, parsers)
  {
    forall n | 0 <= n < |ops| ensures !LandsLate(Run(ops[..n], parsers), ops[n]) {
      assert ops[n] in ops;
    }
    RetiredAbsorbs(ops, parsers);
  }

  // A save that lands late: a host is read, retired by someone else, and then touched from the copy.
  const HOST_SEEN: Observation := Observation("sweep", HOST, "h", 1, "", map[])

  function Host(status: Status): Asset {
    Asset(IdFor(HOST, "h"), HOST, "h", "", status, Some(1), Some(1), map[])
  }

  function Holding(status: Status): Store {
    Store(map[IdFor(HOST, "h") := Host(status)], map[])
  }

  function LateRun(): seq<Op> {
    [Whole(R.Ingest(HOST_SEEN, 1, [])), Whole(R.Move(IdFor(HOST, "h"), ACTIVE, 1)), Read(0, IdFor(HOST, "h")),
     Whole(R.Move(IdFor(HOST, "h"), RETIRED, 1)), SaveTouched(0, 1)]
  }

  lemma HostStands(status: Status, parsers: Parsers)
    requires DISCOVERED <= status <= RETIRED
    ensures Storable(Host(status), parsers) && CanonicalHost("h") == Some("h")
    ensures Normalize(HOST_SEEN, parsers) == Some(Host(DISCOVERED))
  {
    TrimFixed("h");
    TrimFixed("sweep");
    TrimFixed("");
    assert Lower("h") == "h";
  }

  lemma HostIngested(parsers: Parsers)
    ensures R.StepOf(Store(map[], map[]), R.Ingest(HOST_SEEN, 1, []), parsers) == Holding(DISCOVERED)
  {
    HostStands(DISCOVERED, parsers);
  }

  lemma HostMoved(from: Status, to: Status, parsers: Parsers)
    requires DISCOVERED <= from && to in NextStates(from)
    ensures R.StepOf(Holding(from), R.Move(IdFor(HOST, "h"), to, 1), parsers) == Holding(to)
  {
    HostStands(to, parsers);
  }

  lemma RetirementLost(parsers: Parsers)
    ensures LandsLate(Run(LateRun()[..4], parsers), LateRun()[4]) && !Absorbing(LateRun(), parsers)
  {
    var ops := LateRun();
    assert ops[..0] == [];
    HostIngested(parsers);
    HostMoved(DISCOVERED, ACTIVE, parsers);
    HostMoved(ACTIVE, RETIRED, parsers);
    OneMoreOp(ops, 0, parsers);
    OneMoreOp(ops, 1, parsers);
    OneMoreOp(ops, 2, parsers);
    OneMoreOp(ops, 3, parsers);
    assert Run(ops[..4], parsers) == State(Holding(RETIRED), map[0 := Host(ACTIVE)]);
    RetiredAbsorbs(ops, parsers);
  }

  // A host seen again at 9 by one clock and then at 5 by another.
  function BackwardRun(): seq<R.Op> {
    [R.Ingest(HOST_SEEN, 1, []), R.Ingest(HOST_SEEN, 9, []), R.Ingest(HOST_SEEN, 5, [])]
  }

  function SeenAt(at: Time): Store {
    Store(map[IdFor(HOST, "h") := Host(ACTIVE).(lastSeen := Some(at))], map[])
  }

  /** The last sighting can move backwards: a run of whole ingestions, all successful, in which it does. */
  lemma LastSeenGoesBack(parsers: Parsers)
    ensures R.Run(BackwardRun()[..2], parsers) == SeenAt(9) && R.Run(BackwardRun(), parsers) == SeenAt(5)
  {
    var ops := BackwardRun();
    WholeStep(ops, 0, parsers);
    WholeStep(ops, 1, parsers);
    WholeStep(ops, 2, parsers);
    assert ops[..0] == [] && ops[..3] == ops;
    HostIngested(parsers);
    HostTouched(Host(DISCOVERED), 9, parsers);
    HostTouched(Host(ACTIVE).(lastSeen := Some(9)), 5, parsers);
  }

  lemma WholeStep(ops: seq<R.Op>, n: nat, parsers: Parsers)
    requires n < |ops|
    ensures R.Run(ops[..n + 1], parsers) == R.StepOf(R.Run(ops[..n], parsers), ops[n], parsers)
  {
    assert ops[..n + 1][..n] == ops[..n];
  }

  lemma HostTouched(was: Asset, now: Time, parsers: Parsers)
    requires was == Host(was.status).(lastSeen := was.lastSeen) && DISCOVERED <= was.status < RETIRED && now >= 1
    ensures R.StepOf(Store(map[was.id := was], map[]), R.Ingest(HOST_SEEN, now, []), parsers) == SeenAt(now)
  {
    HostStands(ACTIVE, parsers);
  }
}
