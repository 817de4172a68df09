/** The composed chain: an event becomes detections and alerts, alerts become incidents, incidents gain evidence, and only
    then is the event forwarded. What holds across the components after every run of successful steps. */
module Chain {
  import opened Base
  import opened Contract
  import opened Evidences
  import D = DetectEngine
  import I = Incidents
  import opened Rule

  datatype Chain = Chain(
    world: D.World, book: I.Book, evidence: map<string, Evidence>, stored: seq<D.Pair>,
    archive: seq<TelemetryEvent>, failing: bool)

  const START: Chain := Chain(D.START, I.Book(map[], map[]), map[], [], [], false)

  datatype Error = ErrDetection | ErrIncident | ErrEvidence | ErrSink

  // One emitted event with what the outside answers: the engine's clock, its rules and the manager's clock readings.
  datatype Input = Input(event: TelemetryEvent, now: Time, answers: D.Answers, clock: nat -> Time)

  // ---------------------------------------------------------------------------
  // One emission
  // ---------------------------------------------------------------------------

  // The contributing events, None when one is not archived.
  function Gather(archive: seq<TelemetryEvent>, ids: seq<string>): Option<seq<TelemetryEvent>> {
    if ids == [] then Some([])
    else
      var front, last := Gather(archive, ids[..|ids| - 1]), FindEvent(archive, ids[|ids| - 1]);
      if front.Some? && last.Some? then Some(front.value + [last.value]) else None
  }

  datatype Filing = Filing(book: I.Book, evidence: map<string, Evidence>, error: Option<Error>)

  ghost function FileOne(was: Filing, p: D.Pair, snapshot: seq<TelemetryEvent>, now: Time, render: Rendering): Filing {
    if was.error.Some? then was
    else
      match Gather(snapshot, p.det.eventIds)
      case None => was.(error := Some(ErrIncident))
      case Some(events) =>
        var s := I.IngestStep(was.book, I.Triple(p.alert, p.det, events), now);
        if s.answer.Refused? then Filing(s.book, was.evidence, Some(ErrIncident))
        else
          var inc := s.answer.incident;
          match Build(inc.id, p.alert, p.det, events, AsTime(inc.updatedAt), render)
          case None => Filing(s.book, was.evidence, Some(ErrEvidence))
          case Some(items) => Filing(s.book, KeepAll(was.evidence, items), None)
  }

  ghost function FileAll(was: Filing, pairs: seq<D.Pair>, snapshot: seq<TelemetryEvent>, clock: nat -> Time,
                         render: Rendering): Filing
  {
    if pairs == [] then was
    else
      FileOne(FileAll(was, pairs[..|pairs| - 1], snapshot, clock, render), pairs[|pairs| - 1], snapshot,
              clock(|pairs| - 1), render)
  }

  datatype Emission = Emission(chain: Chain, error: Option<Error>)

  // The chain after the engine has answered: store, look up, file, forward.
  ghost function Deliver(c: Chain, detections: seq<Detection>, alerts: seq<Alert>, e: TelemetryEvent,
                         clock: nat -> Time, render: Rendering): Emission
  {
    if |detections| != |alerts| then Emission(c, Some(ErrDetection))
    else
      var pairs, snapshot := D.Zip(detections, alerts), c.archive + [e];
      var c' := c.(stored := c.stored + pairs);
      if !UniqueIds(snapshot) then Emission(c', Some(ErrIncident))
      else
        var filed := FileAll(Filing(c.book, c.evidence, None), pairs, snapshot, clock, render);
        var c'' := c'.(book := filed.book, evidence := filed.evidence);
        if filed.error.Some? then Emission(c'', filed.error)
        else if c.failing then Emission(c'', Some(ErrSink))
        else Emission(c''.(archive := snapshot), None)
  }

  ghost function EmitStep(c: Chain, input: Input, render: Rendering): Emission {
    var em := D.ProcessStep(c.world.engine, c.world.rules, c.world.disabled, input.event, input.now, input.answers);
    var c' := c.(world := c.world.(engine := em.state));
    if em.result.Aborted? then Emission(c', Some(ErrDetection))
    else Deliver(c', em.result.detections, em.result.alerts, input.event, input.clock, render)
  }

  // ---------------------------------------------------------------------------
  // What the chain has reached
  // ---------------------------------------------------------------------------

  function TripleOf(p: D.Pair, archive: seq<TelemetryEvent>): I.Triple {
    var events := Gather(archive, p.det.eventIds);
    I.Triple(p.alert, p.det, if events.Some? then events.value else [])
  }

  function MarkAt(p: D.Pair, archive: seq<TelemetryEvent>): I.Mark {
    I.MarkOf(TripleOf(p, archive))
  }

  function Marks(stored: seq<D.Pair>, archive: seq<TelemetryEvent>): set<I.Mark> {
    set p | p in stored :: MarkAt(p, archive)
  }

  // One piece of evidence the chain owes: an incident and what to record about it.
  datatype Entry = Entry(incidentId: string, draft: Draft)

  function SlotOf(en: Entry): Slot {
    Slot(en.incidentId, en.draft.kind, en.draft.refId)
  }

  function Entries(stored: seq<D.Pair>, archive: seq<TelemetryEvent>, render: Rendering): set<Entry> {
    set p, d | p in stored && d in Drafts(p.alert, p.det, archive, render)
      :: Entry(I.IncidentId(MarkAt(p, archive).key), d)
  }

  // An item that records what it owes and verifies.
  predicate Says(ev: Evidence, en: Entry) {
    && ev.id == EvidenceId(SlotOf(en)) && ev.incidentId == en.incidentId
    && ev.evidenceType == en.draft.evidenceType && ev.source == en.draft.source
    && en.draft.content == Some(ev.content) && Verify(ev)
  }

  // The store holds exactly one item per entry.
  ghost predicate Recorded(evidence: map<string, Evidence>, entries: set<Entry>) {
    && (forall en :: en in entries ==>
          EvidenceId(SlotOf(en)) in evidence && Says(evidence[EvidenceId(SlotOf(en))], en))
    && (forall id :: id in evidence ==> exists en :: en in entries && EvidenceId(SlotOf(en)) == id)
  }

  // Entries are told apart by their slots, and slots by their ids.
  ghost predicate Slotted(entries: set<Entry>) {
    && (forall a, b :: a in entries && b in entries && SlotOf(a) == SlotOf(b) ==> a == b)
    && (forall a :: a in entries ==> SEPARATOR !in a.incidentId && SEPARATOR !in a.draft.kind)
  }

  ghost predicate DistinctStored(stored: seq<D.Pair>) {
    forall i, j :: 0 <= i < j < |stored| ==> stored[i].det.id != stored[j].det.id
  }

  ghost predicate AlignedPair(p: D.Pair) {
    exists now :: D.Aligned(p.det, p.alert, now)
  }

  ghost predicate Archived(stored: seq<D.Pair>, archive: seq<TelemetryEvent>) {
    forall p, id :: p in stored && id in p.det.eventIds ==> FindEvent(archive, id).Some?
  }

  // What every successful run keeps.
  ghost predicate Sound(c: Chain, render: Rendering) {
    && UniqueIds(c.archive)
    && D.Conserved(c.world)
    && Remembered(c.world.engine.seen, c.stored)
    && Archived(c.stored, c.archive)
    && Booked(c.book, Marks(c.stored, c.archive))
    && Recorded(c.evidence, Entries(c.stored, c.archive, render))
  }

  // The engine has seen exactly what is stored, each detection beside its own alert.
  ghost predicate Remembered(seen: set<string>, stored: seq<D.Pair>) {
    && Paired(stored)
    && (forall id :: id in seen <==> exists p :: p in stored && p.det.id == id)
  }

  ghost predicate Paired(stored: seq<D.Pair>) {
    DistinctStored(stored) && forall p :: p in stored ==> AlignedPair(p)
  }

  // The incidents are those the marks describe.
  ghost predicate Booked(book: I.Book, marks: set<I.Mark>) {
    I.Sound(book) && I.Describes(I.Ledger(book), marks)
  }

  // ---------------------------------------------------------------------------
  // Separation of marks and entries
  // ---------------------------------------------------------------------------

  lemma PairById(stored: seq<D.Pair>, p: D.Pair, q: D.Pair)
    requires DistinctStored(stored) && p in stored && q in stored && p.det.id == q.det.id
    ensures p == q
  {
  }

  lemma AlertIdInjective(a: string, b: string)
    requires D.AlertId(a) == D.AlertId(b)
    ensures a == b
  {
    assert D.AlertId(a)[6..] == a && D.AlertId(b)[6..] == b;
  }

  lemma AlignedAlertId(p: D.Pair)
    requires AlignedPair(p)
    ensures p.alert.id == D.AlertId(p.det.id)
  {
  }

  // Dedup in the engine gives the incident manager what it cannot check itself: no alert id arrives with two contents.
  lemma MarksConsistent(stored: seq<D.Pair>, archive: seq<TelemetryEvent>)
    requires Paired(stored)
    ensures I.Consistent(Marks(stored, archive))
  {
    var marks := Marks(stored, archive);
    forall s, t | s in marks && t in marks && s.alertId == t.alertId ensures s == t {
      var p :| p in stored && MarkAt(p, archive) == s;
      var q :| q in stored && MarkAt(q, archive) == t;
      AlignedAlertId(p);
      AlignedAlertId(q);
      AlertIdInjective(p.det.id, q.det.id);
      PairById(stored, p, q);
    }
  }

  lemma IncidentIdPlain(key: string)
    ensures SEPARATOR !in I.IncidentId(key)
  {
    DigestAvoids("blueveil-incident-v1" + [SEPARATOR] + key, SEPARATOR);
  }

  lemma DraftShape(p: D.Pair, archive: seq<TelemetryEvent>, render: Rendering, d: Draft)
    requires d in Drafts(p.alert, p.det, archive, render)
    ensures SEPARATOR !in d.kind
    ensures (d == EventDraft(d.refId, archive, render) && d.kind == "event")
         || d == Draft("detection", p.det.id, NOTE, SOURCE_DETECT, render.detection(p.det))
         || d == Draft("alert", p.alert.id, NOTE, SOURCE_DETECT, render.alert(p.alert))
  {
    var drafts := Drafts(p.alert, p.det, archive, render);
    var i :| 0 <= i < |drafts| && drafts[i] == d;
  }

  lemma EntriesSlotted(stored: seq<D.Pair>, archive: seq<TelemetryEvent>, render: Rendering)
    requires Paired(stored)
    ensures Slotted(Entries(stored, archive, render))
  {
    var entries := Entries(stored, archive, render);
    forall a | a in entries ensures SEPARATOR !in a.incidentId && SEPARATOR !in a.draft.kind {
      var p, d :| p in stored && d in Drafts(p.alert, p.det, archive, render)
                  && a == Entry(I.IncidentId(MarkAt(p, archive).key), d);
      IncidentIdPlain(MarkAt(p, archive).key);
      DraftShape(p, archive, render, d);
    }
    forall a, b | a in entries && b in entries && SlotOf(a) == SlotOf(b) ensures a == b {
      var p, d :| p in stored && d in Drafts(p.alert, p.det, archive, render)
                  && a == Entry(I.IncidentId(MarkAt(p, archive).key), d);
      var q, e :| q in stored && e in Drafts(q.alert, q.det, archive, render)
                  && b == Entry(I.IncidentId(MarkAt(q, archive).key), e);
      SameDraft(stored, p, q, archive, render, d, e);
    }
  }

  lemma SameDraft(stored: seq<D.Pair>, p: D.Pair, q: D.Pair, archive: seq<TelemetryEvent>, render: Rendering,
                  d: Draft, e: Draft)
    requires DistinctStored(stored) && p in stored && q in stored && AlignedPair(p) && AlignedPair(q)
    requires d in Drafts(p.alert, p.det, archive, render) && e in Drafts(q.alert, q.det, archive, render)
    requires d.kind == e.kind && d.refId == e.refId
    ensures d == e
  {
    DraftShape(p, archive, render, d);
    DraftShape(q, archive, render, e);
    if d.kind == "detection" {
      PairById(stored, p, q);
    } else if d.kind == "alert" {
      AlignedAlertId(p);
      AlignedAlertId(q);
      AlertIdInjective(p.det.id, q.det.id);
      PairById(stored, p, q);
    }
  }

  // ---------------------------------------------------------------------------
  // The archive only grows
  // ---------------------------------------------------------------------------

  lemma FindStable(archive: seq<TelemetryEvent>, e: TelemetryEvent, id: string)
    requires id != e.id
    ensures FindEvent(archive + [e], id) == FindEvent(archive, id)
  {
    assert (archive + [e])[..|archive|] == archive;
  }

  lemma {:induction false} GatherFacts(archive: seq<TelemetryEvent>, ids: seq<string>)
    ensures Gather(archive, ids).Some? <==> forall id :: id in ids ==> FindEvent(archive, id).Some?
    ensures Gather(archive, ids).Some? ==>
              && |Gather(archive, ids).value| == |ids|
              && forall i :: 0 <= i < |ids| ==> FindEvent(archive, ids[i]) == Some(Gather(archive, ids).value[i])
  {
    if ids != [] {
      var front, last := ids[..|ids| - 1], ids[|ids| - 1];
      GatherFacts(archive, front);
      assert forall id :: id in ids <==> id in front || id == last;
      if Gather(archive, ids).Some? {
        forall i | 0 <= i < |ids| ensures FindEvent(archive, ids[i]) == Some(Gather(archive, ids).value[i]) {
          assert i < |front| ==> front[i] == ids[i];
        }
      } else if FindEvent(archive, last).None? {
        assert last in ids;
      } else {
        var id :| id in front && FindEvent(archive, id).None?;
        assert id in ids;
      }
    }
  }

  lemma {:induction false} GatherStable(archive: seq<TelemetryEvent>, e: TelemetryEvent, ids: seq<string>)
    requires e.id !in ids
    ensures Gather(archive + [e], ids) == Gather(archive, ids)
  {
    if ids != [] {
      GatherStable(archive, e, ids[..|ids| - 1]);
      FindStable(archive, e, ids[|ids| - 1]);
    }
  }

  // Gathered events answer like the archive they were gathered from.
  lemma {:induction false} FindGathered(archive: seq<TelemetryEvent>, ids: seq<string>, id: string)
    requires Gather(archive, ids).Some? && id in ids
    ensures FindEvent(Gather(archive, ids).value, id) == FindEvent(archive, id)
  {
    var front, last := ids[..|ids| - 1], ids[|ids| - 1];
    var events := Gather(archive, ids).value;
    assert events[..|events| - 1] == Gather(archive, front).value;
    FindEventFinds(archive, last);
    if last != id {
      assert ids == front + [last];
      FindGathered(archive, front, id);
    }
  }

  lemma DraftsGathered(p: D.Pair, archive: seq<TelemetryEvent>, render: Rendering)
    requires Gather(archive, p.det.eventIds).Some?
    ensures Drafts(p.alert, p.det, Gather(archive, p.det.eventIds).value, render)
         == Drafts(p.alert, p.det, archive, render)
  {
    var ids, events := SortStrings(p.det.eventIds), Gather(archive, p.det.eventIds).value;
    SortedMembers(p.det.eventIds);
    forall i | 0 <= i < |ids| ensures EventDraft(ids[i], events, render) == EventDraft(ids[i], archive, render) {
      FindGathered(archive, p.det.eventIds, ids[i]);
    }
    assert MapSeq(ids, id => EventDraft(id, events, render)) == MapSeq(ids, id => EventDraft(id, archive, render));
  }

  lemma DraftsStable(p: D.Pair, archive: seq<TelemetryEvent>, e: TelemetryEvent, render: Rendering)
    requires e.id !in p.det.eventIds
    ensures Drafts(p.alert, p.det, archive + [e], render) == Drafts(p.alert, p.det, archive, render)
  {
    var ids := SortStrings(p.det.eventIds);
    SortedMembers(p.det.eventIds);
    forall i | 0 <= i < |ids| ensures EventDraft(ids[i], archive + [e], render) == EventDraft(ids[i], archive, render) {
      assert ids[i] in ids;
      FindStable(archive, e, ids[i]);
    }
    assert MapSeq(ids, id => EventDraft(id, archive + [e], render))
        == MapSeq(ids, id => EventDraft(id, archive, render));
  }

  lemma UniqueGrows(events: seq<TelemetryEvent>, e: TelemetryEvent)
    ensures UniqueIds(events + [e]) <==> UniqueIds(events) && FindEvent(events, e.id).None?
  {
    FindEventFinds(events, e.id);
    var all := events + [e];
    if UniqueIds(events) && FindEvent(events, e.id).None? {
      forall i, j | 0 <= i < j < |all| ensures all[i].id != all[j].id {
        assert i < |events| && all[i] in events;
      }
    }
    if UniqueIds(all) {
      forall i, j | 0 <= i < j < |events| ensures events[i].id != events[j].id {
        assert all[i] == events[i] && all[j] == events[j];
      }
      forall x | x in events ensures x.id != e.id {
        var i :| 0 <= i < |events| && events[i] == x;
        assert all[i].id != all[|events|].id;
      }
    }
  }

  lemma UniqueFront(events: seq<TelemetryEvent>, n: nat)
    requires n <= |events|
    ensures UniqueIds(events) ==> UniqueIds(events[..n])
  {
  }

  // A new event leaves what the chain has reached as it was.
  lemma ReachedStable(stored: seq<D.Pair>, archive: seq<TelemetryEvent>, e: TelemetryEvent, render: Rendering)
    requires Archived(stored, archive) && UniqueIds(archive + [e])
    ensures Marks(stored, archive + [e]) == Marks(stored, archive)
    ensures Entries(stored, archive + [e], render) == Entries(stored, archive, render)
    ensures Archived(stored, archive + [e])
  {
    UniqueGrows(archive, e);
    forall p | p in stored
      ensures MarkAt(p, archive + [e]) == MarkAt(p, archive)
      ensures Drafts(p.alert, p.det, archive + [e], render) == Drafts(p.alert, p.det, archive, render)
    {
      GatherStable(archive, e, p.det.eventIds);
      DraftsStable(p, archive, e, render);
    }
    forall p, id | p in stored && id in p.det.eventIds ensures FindEvent(archive + [e], id).Some? {
      FindStable(archive, e, id);
    }
  }

  // ---------------------------------------------------------------------------
  // Filing the pairs of one emission
  // ---------------------------------------------------------------------------

  // An id that is already stored was stored for the same entry.
  lemma StoredEntry(evidence: map<string, Evidence>, entries: set<Entry>, en: Entry)
    requires Recorded(evidence, entries) && Slotted(entries + {en}) && EvidenceId(SlotOf(en)) in evidence
    ensures en in entries
  {
    var x :| x in entries && EvidenceId(SlotOf(x)) == EvidenceId(SlotOf(en));
    assert x in entries + {en} && en in entries + {en};
    EvidenceIdInjective(SlotOf(x), SlotOf(en));
  }

  lemma NewEntry(evidence: map<string, Evidence>, entries: set<Entry>, en: Entry, ev: Evidence)
    requires Recorded(evidence, entries) && Says(ev, en) && ev.id !in evidence
    ensures Recorded(evidence[ev.id := ev], entries + {en})
  {
    var after, all := evidence[ev.id := ev], entries + {en};
    assert en in all;
    forall id | id in evidence ensures exists x :: x in all && EvidenceId(SlotOf(x)) == id {
      var x :| x in entries && EvidenceId(SlotOf(x)) == id;
      assert x in all;
    }
  }

  lemma RecordedGrows(evidence: map<string, Evidence>, entries: set<Entry>, en: Entry, ev: Evidence)
    requires Recorded(evidence, entries) && Slotted(entries + {en}) && Says(ev, en)
    ensures Recorded(KeepFirst(evidence, ev), entries + {en})
  {
    if ev.id in evidence {
      StoredEntry(evidence, entries, en);
      assert entries + {en} == entries;
    } else {
      NewEntry(evidence, entries, en, ev);
    }
  }

  function EntrySet(incidentId: string, drafts: seq<Draft>): set<Entry> {
    set d | d in drafts :: Entry(incidentId, d)
  }

  lemma SlottedSubset(part: set<Entry>, whole: set<Entry>)
    requires Slotted(whole) && part <= whole
    ensures Slotted(part)
  {
  }

  lemma EntrySetGrows(incidentId: string, front: seq<Draft>, d: Draft)
    ensures EntrySet(incidentId, front + [d]) == EntrySet(incidentId, front) + {Entry(incidentId, d)}
  {
    assert forall x :: x in front + [d] <==> x in front || x == d;
  }

  lemma {:induction false} ItemsRecorded(evidence: map<string, Evidence>, entries: set<Entry>, incidentId: string,
                                         drafts: seq<Draft>, now: Time)
    requires Recorded(evidence, entries) && Slotted(entries + EntrySet(incidentId, drafts))
    requires Items(incidentId, drafts, now).Some?
    ensures Recorded(KeepAll(evidence, Items(incidentId, drafts, now).value),
                     entries + EntrySet(incidentId, drafts))
  {
    if drafts == [] {
      assert entries + EntrySet(incidentId, drafts) == entries;
    } else {
      var front, d := drafts[..|drafts| - 1], drafts[|drafts| - 1];
      OneMoreDraft(entries, incidentId, drafts);
      ItemsRecorded(evidence, entries, incidentId, front, now);
      ItemRecorded(KeepAll(evidence, Items(incidentId, front, now).value), entries + EntrySet(incidentId, front),
                   incidentId, d, now);
      KeepOneMore(evidence, Items(incidentId, front, now).value, NewItem(incidentId, d, now).value);
    }
  }

  lemma OneMoreDraft(entries: set<Entry>, incidentId: string, drafts: seq<Draft>)
    requires drafts != [] && Slotted(entries + EntrySet(incidentId, drafts))
    ensures var before := entries + EntrySet(incidentId, drafts[..|drafts| - 1]);
            && Slotted(before)
            && before + {Entry(incidentId, drafts[|drafts| - 1])} == entries + EntrySet(incidentId, drafts)
  {
    var front, d := drafts[..|drafts| - 1], drafts[|drafts| - 1];
    assert drafts == front + [d];
    EntrySetGrows(incidentId, front, d);
    var before := entries + EntrySet(incidentId, front);
    assert before + {Entry(incidentId, d)} == entries + EntrySet(incidentId, drafts);
    SlottedSubset(before, entries + EntrySet(incidentId, drafts));
  }

  lemma ItemRecorded(evidence: map<string, Evidence>, entries: set<Entry>, incidentId: string, d: Draft, now: Time)
    requires Recorded(evidence, entries) && Slotted(entries + {Entry(incidentId, d)})
    requires NewItem(incidentId, d, now).Some?
    ensures Recorded(KeepFirst(evidence, NewItem(incidentId, d, now).value), entries + {Entry(incidentId, d)})
  {
    ItemStands(incidentId, d, now);
    RecordedGrows(evidence, entries, Entry(incidentId, d), NewItem(incidentId, d, now).value);
  }

  lemma KeepOneMore(evidence: map<string, Evidence>, items: seq<Evidence>, ev: Evidence)
    ensures KeepAll(evidence, items + [ev]) == KeepFirst(KeepAll(evidence, items), ev)
  {
    assert (items + [ev])[..|items|] == items;
  }

  lemma OneMoreMark(stored: seq<D.Pair>, p: D.Pair, archive: seq<TelemetryEvent>)
    ensures Marks(stored + [p], archive) == Marks(stored, archive) + {MarkAt(p, archive)}
  {
    assert forall q :: q in stored + [p] <==> q in stored || q == p;
  }

  lemma OneMoreEntry(stored: seq<D.Pair>, p: D.Pair, archive: seq<TelemetryEvent>, render: Rendering)
    ensures Entries(stored + [p], archive, render)
         == Entries(stored, archive, render)
            + EntrySet(I.IncidentId(MarkAt(p, archive).key), Drafts(p.alert, p.det, archive, render))
  {
    assert forall q :: q in stored + [p] <==> q in stored || q == p;
  }

  // What an emission has filed so far.
  ghost predicate Filed(f: Filing, stored: seq<D.Pair>, archive: seq<TelemetryEvent>, render: Rendering) {
    && Booked(f.book, Marks(stored, archive))
    && Recorded(f.evidence, Entries(stored, archive, render))
    && Archived(stored, archive)
  }

  // An accepted ingestion answers the incident of its key.
  lemma IngestAnswers(b: I.Book, t: I.Triple, now: Time)
    requires I.Sound(b) && I.Acceptable(t, now)
    ensures I.IngestStep(b, t, now).answer.Kept?
    ensures I.IngestStep(b, t, now).answer.incident.id == I.IncidentId(I.KeyOf(t))
  {
    I.IngestForm(b, t, now);
    if I.KeyOf(t) in b.byKey {
      assert I.SoundRecord(b.byKey[I.KeyOf(t)], b.byId[b.byKey[I.KeyOf(t)]]);
    }
  }

  // A pair filed without error: what happened to the book and to the evidence.
  lemma FileOneForm(f: Filing, p: D.Pair, archive: seq<TelemetryEvent>, now: Time, render: Rendering)
    returns (at: Time)
    requires f.error.None? && I.Sound(f.book) && FileOne(f, p, archive, now, render).error.None?
    ensures Gather(archive, p.det.eventIds).Some? && I.Acceptable(TripleOf(p, archive), now)
    ensures FileOne(f, p, archive, now, render).book == I.IngestStep(f.book, TripleOf(p, archive), now).book
    ensures var items := Items(I.IncidentId(MarkAt(p, archive).key), Drafts(p.alert, p.det, archive, render), at);
            items.Some? && FileOne(f, p, archive, now, render).evidence == KeepAll(f.evidence, items.value)
  {
    FileOneTaken(f, p, archive, now, render);
    var answer := I.IngestStep(f.book, TripleOf(p, archive), now).answer;
    IngestAnswers(f.book, TripleOf(p, archive), now);
    DraftsGathered(p, archive, render);
    at := AsTime(answer.incident.updatedAt);
  }

  // Filing without error means that the manager kept the triple.
  lemma FileOneTaken(f: Filing, p: D.Pair, archive: seq<TelemetryEvent>, now: Time, render: Rendering)
    requires f.error.None? && I.Sound(f.book) && FileOne(f, p, archive, now, render).error.None?
    ensures Gather(archive, p.det.eventIds).Some? && I.Acceptable(TripleOf(p, archive), now)
  {
    I.IngestForm(f.book, TripleOf(p, archive), now);
  }

  lemma BookKeeps(book: I.Book, marks: set<I.Mark>, t: I.Triple, now: Time)
    requires Booked(book, marks) && I.Acceptable(t, now) && I.Consistent(marks + {I.MarkOf(t)})
    ensures Booked(I.IngestStep(book, t, now).book, marks + {I.MarkOf(t)})
  {
    I.IngestSound(book, t, now);
    I.IngestNotes(book, t, now);
    I.NotedDescribes(I.Ledger(book), marks, I.MarkOf(t));
  }

  lemma FiledBook(book: I.Book, stored: seq<D.Pair>, p: D.Pair, archive: seq<TelemetryEvent>, now: Time)
    requires Booked(book, Marks(stored, archive)) && Paired(stored + [p])
    requires I.Acceptable(TripleOf(p, archive), now)
    ensures Booked(I.IngestStep(book, TripleOf(p, archive), now).book, Marks(stored + [p], archive))
  {
    MarksConsistent(stored + [p], archive);
    OneMoreMark(stored, p, archive);
    BookKeeps(book, Marks(stored, archive), TripleOf(p, archive), now);
  }

  lemma FiledEvidence(evidence: map<string, Evidence>, stored: seq<D.Pair>, p: D.Pair, archive: seq<TelemetryEvent>,
                      at: Time, render: Rendering)
    requires Recorded(evidence, Entries(stored, archive, render)) && Paired(stored + [p])
    requires Items(I.IncidentId(MarkAt(p, archive).key), Drafts(p.alert, p.det, archive, render), at).Some?
    ensures Recorded(KeepAll(evidence, Items(I.IncidentId(MarkAt(p, archive).key),
                                             Drafts(p.alert, p.det, archive, render), at).value),
                     Entries(stored + [p], archive, render))
  {
    EntriesSlotted(stored + [p], archive, render);
    OneMoreEntry(stored, p, archive, render);
    ItemsRecorded(evidence, Entries(stored, archive, render), I.IncidentId(MarkAt(p, archive).key),
                  Drafts(p.alert, p.det, archive, render), at);
  }

  lemma FiledArchive(stored: seq<D.Pair>, p: D.Pair, archive: seq<TelemetryEvent>)
    requires Archived(stored, archive) && Gather(archive, p.det.eventIds).Some?
    ensures Archived(stored + [p], archive)
  {
    GatherFacts(archive, p.det.eventIds);
  }

  lemma FileOneKeeps(f: Filing, stored: seq<D.Pair>, p: D.Pair, archive: seq<TelemetryEvent>, now: Time,
                     render: Rendering)
    requires Filed(f, stored, archive, render) && f.error.None?
    requires FileOne(f, p, archive, now, render).error.None?
    requires Paired(stored + [p])
    ensures Filed(FileOne(f, p, archive, now, render), stored + [p], archive, render)
  {
    var at := FileOneForm(f, p, archive, now, render);
    FiledBook(f.book, stored, p, archive, now);
    FiledEvidence(f.evidence, stored, p, archive, at, render);
    FiledArchive(stored, p, archive);
  }

  lemma PairedFront(stored: seq<D.Pair>, more: seq<D.Pair>)
    requires Paired(stored + more)
    ensures Paired(stored)
  {
    forall p | p in stored ensures AlignedPair(p) {
      assert p in stored + more;
    }
    forall i, j | 0 <= i < j < |stored| ensures stored[i].det.id != stored[j].det.id {
      assert (stored + more)[i] == stored[i] && (stored + more)[j] == stored[j];
    }
  }

  // The last pair of a filing without error, and the filing it continues.
  lemma FileAllLast(f: Filing, pairs: seq<D.Pair>, archive: seq<TelemetryEvent>, clock: nat -> Time, render: Rendering)
    requires pairs != [] && FileAll(f, pairs, archive, clock, render).error.None?
    ensures var n := |pairs| - 1;
            var was := FileAll(f, pairs[..n], archive, clock, render);
            && was.error.None?
            && FileAll(f, pairs, archive, clock, render) == FileOne(was, pairs[n], archive, clock(n), render)
  {
  }

  lemma OneMorePair(stored: seq<D.Pair>, pairs: seq<D.Pair>)
    requires pairs != [] && Paired(stored + pairs)
    ensures stored + pairs == (stored + pairs[..|pairs| - 1]) + [pairs[|pairs| - 1]]
    ensures Paired(stored + pairs[..|pairs| - 1])
  {
    assert stored + pairs == (stored + pairs[..|pairs| - 1]) + [pairs[|pairs| - 1]];
    PairedFront(stored + pairs[..|pairs| - 1], [pairs[|pairs| - 1]]);
  }

  lemma {:induction false} FileAllKeeps(f: Filing, stored: seq<D.Pair>, pairs: seq<D.Pair>,
                                        archive: seq<TelemetryEvent>, clock: nat -> Time, render: Rendering)
    requires Filed(f, stored, archive, render) && f.error.None?
    requires FileAll(f, pairs, archive, clock, render).error.None?
    requires Paired(stored + pairs)
    ensures Filed(FileAll(f, pairs, archive, clock, render), stored + pairs, archive, render)
  {
    if pairs == [] {
      assert stored + pairs == stored;
    } else {
      var n := |pairs| - 1;
      OneMorePair(stored, pairs);
      FileAllLast(f, pairs, archive, clock, render);
      FileAllKeeps(f, stored, pairs[..n], archive, clock, render);
      FileOneKeeps(FileAll(f, pairs[..n], archive, clock, render), stored + pairs[..n], pairs[n], archive, clock(n),
                   render);
    }
  }

  // ---------------------------------------------------------------------------
  // Runs of successful steps
  // ---------------------------------------------------------------------------

  // The pairs of a processed event, fresh and aligned.
  ghost predicate FreshPairs(seen: set<string>, seen': set<string>, pairs: seq<D.Pair>) {
    && Paired(pairs)
    && (forall p :: p in pairs ==> p.det.id !in seen)
    && (forall id :: id in seen' <==> id in seen || exists p :: p in pairs && p.det.id == id)
  }

  lemma DeliveredPairs(s: D.EngineState, n: nat, em: D.Emitting, now: Time)
    requires D.Delivers(s, n, em, now) && em.result.Processed?
    ensures |em.result.detections| == |em.result.alerts|
    ensures FreshPairs(s.seen, em.state.seen, D.Zip(em.result.detections, em.result.alerts))
  {
    var dets, pairs := em.result.detections, D.Zip(em.result.detections, em.result.alerts);
    forall p | p in pairs ensures AlignedPair(p) && p.det.id !in s.seen {
      var i :| 0 <= i < |pairs| && pairs[i] == p;
      assert D.Aligned(dets[i], em.result.alerts[i], now);
      assert dets[i] in dets;
    }
    ZippedIds(dets, em.result.alerts);
  }

  lemma ZippedIds(dets: seq<Detection>, alerts: seq<Alert>)
    requires |dets| == |alerts|
    ensures forall id :: id in D.DetectionIds(dets) <==> exists p :: p in D.Zip(dets, alerts) && p.det.id == id
  {
    var pairs := D.Zip(dets, alerts);
    forall id ensures id in D.DetectionIds(dets) <==> exists p :: p in pairs && p.det.id == id {
      if id in D.DetectionIds(dets) {
        var d :| d in dets && d.id == id;
        var i :| 0 <= i < |dets| && dets[i] == d;
        assert pairs[i] in pairs;
      }
      if exists p :: p in pairs && p.det.id == id {
        var p :| p in pairs && p.det.id == id;
        assert p.det in dets;
      }
    }
  }

  lemma RememberedGrows(seen: set<string>, seen': set<string>, stored: seq<D.Pair>, pairs: seq<D.Pair>)
    requires Remembered(seen, stored) && FreshPairs(seen, seen', pairs)
    ensures Remembered(seen', stored + pairs)
  {
    var all := stored + pairs;
    forall i, j | 0 <= i < j < |all| ensures all[i].det.id != all[j].det.id {
      if i < |stored| <= j {
        assert all[i] in stored && all[j] in pairs;
      }
    }
    forall id ensures id in seen' <==> exists p :: p in all && p.det.id == id {
      if id in seen {
        var p :| p in stored && p.det.id == id;
        assert p in all;
      } else if id in seen' {
        var p :| p in pairs && p.det.id == id;
        assert p in all;
      }
    }
  }

  // A successful emission, taken apart.
  lemma EmitForm(c: Chain, input: Input, render: Rendering) returns (pairs: seq<D.Pair>, filed: Filing)
    requires EmitStep(c, input, render).error.None?
    ensures UniqueIds(c.archive + [input.event])
    ensures filed == FileAll(Filing(c.book, c.evidence, None), pairs, c.archive + [input.event], input.clock, render)
    ensures filed.error.None?
    ensures var world := D.Turn(c.world, D.Process(input.event, input.now, input.answers));
            && EmitStep(c, input, render).chain
               == Chain(world, filed.book, filed.evidence, c.stored + pairs, c.archive + [input.event], c.failing)
            && FreshPairs(c.world.engine.seen, world.engine.seen, pairs)
  {
    var em := D.ProcessStep(c.world.engine, c.world.rules, c.world.disabled, input.event, input.now, input.answers);
    pairs := D.Zip(em.result.detections, em.result.alerts);
    filed := FileAll(Filing(c.book, c.evidence, None), pairs, c.archive + [input.event], input.clock, render);
    D.ProcessDelivers(c.world, input.event, input.now, input.answers);
    var n: nat :| D.Delivers(c.world.engine, n, em, input.now);
    DeliveredPairs(c.world.engine, n, em, input.now);
  }

  // The components after the emission, from the components before it.
  lemma EmissionKeeps(c: Chain, e: TelemetryEvent, seen': set<string>, pairs: seq<D.Pair>, filed: Filing,
                      clock: nat -> Time, render: Rendering)
    requires Archived(c.stored, c.archive) && Booked(c.book, Marks(c.stored, c.archive))
    requires Recorded(c.evidence, Entries(c.stored, c.archive, render))
    requires Remembered(c.world.engine.seen, c.stored) && FreshPairs(c.world.engine.seen, seen', pairs)
    requires UniqueIds(c.archive + [e])
    requires filed == FileAll(Filing(c.book, c.evidence, None), pairs, c.archive + [e], clock, render)
    requires filed.error.None?
    ensures Remembered(seen', c.stored + pairs)
    ensures Filed(filed, c.stored + pairs, c.archive + [e], render)
  {
    RememberedGrows(c.world.engine.seen, seen', c.stored, pairs);
    ReachedStable(c.stored, c.archive, e, render);
    FileAllKeeps(Filing(c.book, c.evidence, None), c.stored, pairs, c.archive + [e], clock, render);
  }

  lemma EmitKeeps(c: Chain, input: Input, render: Rendering)
    requires Sound(c, render) && EmitStep(c, input, render).error.None?
    ensures Sound(EmitStep(c, input, render).chain, render)
  {
    var process := D.Process(input.event, input.now, input.answers);
    D.TurnConserves(c.world, process);
    var pairs, filed := EmitForm(c, input, render);
    EmissionKeeps(c, input.event, D.Turn(c.world, process).engine.seen, pairs, filed, input.clock, render);
  }

  // Rules may come and go, analysts may move incidents, and the sink may break and recover, between emissions.
  datatype Action =
    | Emit(input: Input)
    | Register(rule: RuleInfo)
    | Disable(id: string)
    | Enable(id: string)
    | Move(id: string, to: int, now: Time)
    | SetError(failing: bool)

  ghost function StepOf(c: Chain, a: Action, render: Rendering): Emission {
    match a
    case Emit(input) => EmitStep(c, input, render)
    case Register(rule) => Emission(c.(world := D.Turn(c.world, D.Register(rule))), None)
    case Disable(id) => Emission(c.(world := D.Turn(c.world, D.Disable(id))), None)
    case Enable(id) => Emission(c.(world := D.Turn(c.world, D.Enable(id))), None)
    case Move(id, to, now) => Emission(c.(book := I.TransitionStep(c.book, id, to, now).book), None)
    case SetError(failing) => Emission(c.(failing := failing), None)
  }

  // The chain after a run; the first failed emission ends the run.
  ghost function Run(actions: seq<Action>, render: Rendering): Emission {
    if actions == [] then Emission(START, None)
    else
      var was := Run(actions[..|actions| - 1], render);
      if was.error.Some? then was else StepOf(was.chain, actions[|actions| - 1], render)
  }

  /** The composed invariant holds after every run of successful steps. */
  lemma {:induction false} RunSound(actions: seq<Action>, render: Rendering)
    ensures Run(actions, render).error.None? ==> Sound(Run(actions, render).chain, render)
  {
    if actions == [] {
      assert Marks([], []) == {} && Entries([], [], render) == {};
    } else if Run(actions, render).error.None? {
      RunSound(actions[..|actions| - 1], render);
      StepSound(Run(actions[..|actions| - 1], render).chain, actions[|actions| - 1], render);
    }
  }

  lemma StepSound(c: Chain, a: Action, render: Rendering)
    requires Sound(c, render) && StepOf(c, a, render).error.None?
    ensures Sound(StepOf(c, a, render).chain, render)
  {
    match a
    case Emit(input) => EmitKeeps(c, input, render);
    case Register(rule) => SettingKeeps(c, D.Register(rule), render);
    case Disable(id) => SettingKeeps(c, D.Disable(id), render);
    case Enable(id) => SettingKeeps(c, D.Enable(id), render);
    case Move(id, to, now) => MoveKeeps(c, id, to, now);
    case SetError(_) =>
  }

  lemma SettingKeeps(c: Chain, a: D.Action, render: Rendering)
    requires Sound(c, render) && !a.Process?
    ensures Sound(c.(world := D.Turn(c.world, a)), render)
  {
    D.TurnConserves(c.world, a);
  }

  lemma MoveKeeps(c: Chain, id: string, to: int, now: Time)
    requires I.Sound(c.book)
    ensures var book := I.TransitionStep(c.book, id, to, now).book;
            I.Sound(book) && I.Ledger(book) == I.Ledger(c.book)
  {
    I.TransitionSound(c.book, id, to, now);
    I.TransitionNotes(c.book, id, to, now);
  }

  function EventsOf(actions: seq<Action>): seq<TelemetryEvent> {
    if actions == [] then []
    else
      var front, a := EventsOf(actions[..|actions| - 1]), actions[|actions| - 1];
      if a.Emit? then front + [a.input.event] else front
  }

  // Forwarding is last: the archive is what the run emitted, in order, and a failed emission adds nothing to it.
  lemma {:induction false} ArchiveIsEmitted(actions: seq<Action>, render: Rendering)
    ensures Run(actions, render).chain.archive <= EventsOf(actions)
    ensures Run(actions, render).error.None? ==> Run(actions, render).chain.archive == EventsOf(actions)
  {
    if actions != [] {
      ArchiveIsEmitted(actions[..|actions| - 1], render);
    }
  }

  /** After every successful run each stored alert is in exactly one incident. */
  lemma OneIncidentPerAlert(actions: seq<Action>, render: Rendering)
    ensures var r := Run(actions, render);
            r.error.None? ==> forall p, id :: p in r.chain.stored ==>
              (I.AttachedTo(r.chain.book, p.alert.id, id) <==> id == I.IncidentId(MarkAt(p, r.chain.archive).key))
  {
    var r := Run(actions, render);
    if r.error.None? {
      RunSound(actions, render);
      var c := r.chain;
      MarksConsistent(c.stored, c.archive);
      forall p | p in c.stored
        ensures forall id :: I.AttachedTo(c.book, p.alert.id, id) <==> id == I.IncidentId(MarkAt(p, c.archive).key)
      {
        assert MarkAt(p, c.archive) in Marks(c.stored, c.archive);
        I.AttachedOnce(c.book, Marks(c.stored, c.archive), MarkAt(p, c.archive));
      }
    }
  }

  /** After every successful run the evidence store holds one verifying item for each entry reached, saying what the entry
      says, and no other item. */
  lemma OneItemPerSlot(actions: seq<Action>, render: Rendering)
    ensures var r := Run(actions, render);
            r.error.None? ==>
              && Recorded(r.chain.evidence, Entries(r.chain.stored, r.chain.archive, render))
              && |r.chain.evidence| == |Entries(r.chain.stored, r.chain.archive, render)|
  {
    var r := Run(actions, render);
    if r.error.None? {
      RunSound(actions, render);
      var c, entries := r.chain, Entries(r.chain.stored, r.chain.archive, render);
      EntriesSlotted(c.stored, c.archive, render);
      CountSlots(c.evidence.Keys, entries);
      assert |c.evidence.Keys| == |c.evidence|;
    }
  }

  lemma CountSlots(ids: set<string>, entries: set<Entry>)
    requires Slotted(entries)
    requires forall en :: en in entries ==> EvidenceId(SlotOf(en)) in ids
    requires forall id :: id in ids ==> exists en :: en in entries && EvidenceId(SlotOf(en)) == id
    ensures |ids| == |entries|
  {
    forall a, b | a in entries && b in entries && EvidenceId(SlotOf(a)) == EvidenceId(SlotOf(b)) ensures a == b {
      EvidenceIdInjective(SlotOf(a), SlotOf(b));
    }
    CountImage(ids, entries, en => EvidenceId(SlotOf(en)));
  }

  // A set and its image under a function that tells its elements apart.
  lemma {:induction false} CountImage<T(!new)>(ids: set<string>, xs: set<T>, f: T -> string)
    requires forall a, b :: a in xs && b in xs && f(a) == f(b) ==> a == b
    requires forall x :: x in xs ==> f(x) in ids
    requires forall id :: id in ids ==> exists x :: x in xs && f(x) == id
    ensures |ids| == |xs|
  {
    if xs == {} {
      assert ids == {};
    } else {
      var x :| x in xs;
      forall id | id in ids - {f(x)} ensures exists y :: y in xs - {x} && f(y) == id {
        var y :| y in xs && f(y) == id;
        assert y in xs - {x};
      }
      CountImage(ids - {f(x)}, xs - {x}, f);
    }
  }

  // ---------------------------------------------------------------------------
  // A failed emission
  // ---------------------------------------------------------------------------

  // One more refused pair leaves a refused filing as it was.
  lemma {:induction false} ErrorStays(was: Filing, pairs: seq<D.Pair>, n: nat, snapshot: seq<TelemetryEvent>,
                                      clock: nat -> Time, render: Rendering)
    requires n <= |pairs| && FileAll(was, pairs[..n], snapshot, clock, render).error.Some?
    ensures FileAll(was, pairs, snapshot, clock, render) == FileAll(was, pairs[..n], snapshot, clock, render)
  {
    if n < |pairs| {
      assert pairs[..|pairs| - 1][..n] == pairs[..n];
      ErrorStays(was, pairs[..|pairs| - 1], n, snapshot, clock, render);
    } else {
      assert pairs[..n] == pairs;
    }
  }

  // A book knows only alerts of stored pairs.
  lemma BookedAlerts(book: I.Book, stored: seq<D.Pair>, archive: seq<TelemetryEvent>, alertId: string, id: string)
    requires Booked(book, Marks(stored, archive)) && I.AttachedTo(book, alertId, id)
    ensures exists p :: p in stored && p.alert.id == alertId
  {
    var key :| key in book.byKey && book.byKey[key] == id;
    assert alertId in I.Ledger(book)[key].alerts;
    var m :| m in I.Group(Marks(stored, archive), key) && m.alertId == alertId;
    var p :| p in stored && MarkAt(p, archive) == m;
  }
}
