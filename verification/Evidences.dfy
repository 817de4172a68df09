/** Provenance evidence: one digested item per contributing event, for the detection and for the alert. */
module Evidences {
  import opened Base
  import opened Contract

  const LOG_EXCERPT: int := 1
  const NOTE: int := 6
  const SOURCE_DETECT: string := "blueveil-detect"
  const MEDIA_JSON: string := "application/json"

  datatype Evidence = Evidence(
    id: string, incidentId: string, evidenceType: int, collectedAt: Option<Time>,
    source: string, mediaType: string, sha256: string, content: string)

  predicate ValidEvidence(e: Evidence) {
    && e.id != "" && e.incidentId != "" && e.source != "" && e.mediaType != "" && e.content != ""
    && LOG_EXCERPT <= e.evidenceType <= NOTE && e.collectedAt.Some?
  }

  predicate Verify(e: Evidence) {
    e.sha256 != "" && Digest(e.content) == e.sha256
  }

  // Verification pins the content: two items with the same digest that both verify say the same.
  lemma VerifiedContent(a: Evidence, b: Evidence)
    requires Verify(a) && Verify(b)
    ensures a.sha256 == b.sha256 <==> a.content == b.content
  {
    if a.sha256 == b.sha256 {
      DigestInjective(a.content, b.content);
    }
  }

  // ---------------------------------------------------------------------------
  // Identity
  // ---------------------------------------------------------------------------

  // What an item is about.
  datatype Slot = Slot(incidentId: string, kind: string, refId: string)

  const EVIDENCE_VERSION: string := "blueveil-evidence-v1"

  function EvidenceId(s: Slot): string {
    "ev-" + Digest(EVIDENCE_VERSION + [SEPARATOR] + s.incidentId + [SEPARATOR] + s.kind + [SEPARATOR] + s.refId)
  }

  // The incident and the kind hold no separator; the reference may hold anything.
  lemma EvidenceIdInjective(s: Slot, t: Slot)
    requires SEPARATOR !in s.incidentId && SEPARATOR !in s.kind
    requires SEPARATOR !in t.incidentId && SEPARATOR !in t.kind
    requires EvidenceId(s) == EvidenceId(t)
    ensures s == t
  {
    var sRest, tRest := s.kind + [SEPARATOR] + s.refId, t.kind + [SEPARATOR] + t.refId;
    var sTail, tTail := s.incidentId + [SEPARATOR] + sRest, t.incidentId + [SEPARATOR] + tRest;
    var head := EVIDENCE_VERSION + [SEPARATOR];
    PreimageShape(s, head, sTail);
    PreimageShape(t, head, tTail);
    assert EvidenceId(s)[3..] == Digest(head + sTail) && EvidenceId(t)[3..] == Digest(head + tTail);
    DigestInjective(head + sTail, head + tTail);
    assert (head + sTail)[|head|..] == sTail && (head + tTail)[|head|..] == tTail;
    SplitOnce(s.incidentId, sRest, t.incidentId, tRest);
    SplitOnce(s.kind, s.refId, t.kind, t.refId);
  }

  lemma PreimageShape(s: Slot, head: string, tail: string)
    requires head == EVIDENCE_VERSION + [SEPARATOR]
    requires tail == s.incidentId + [SEPARATOR] + (s.kind + [SEPARATOR] + s.refId)
    ensures EvidenceId(s) == "ev-" + Digest(head + tail)
  {
    assert EVIDENCE_VERSION + [SEPARATOR] + s.incidentId + [SEPARATOR] + s.kind + [SEPARATOR] + s.refId == head + tail;
  }

  // ---------------------------------------------------------------------------
  // Building
  // ---------------------------------------------------------------------------

  // The canonical serialization of the messages, which may fail.
  datatype Rendering = Rendering(
    event: TelemetryEvent -> Option<string>, detection: Detection -> Option<string>, alert: Alert -> Option<string>)

  // The event a map filled from the events in order holds under an id.
  function FindEvent(events: seq<TelemetryEvent>, id: string): Option<TelemetryEvent> {
    if events == [] then None
    else if events[|events| - 1].id == id then Some(events[|events| - 1])
    else FindEvent(events[..|events| - 1], id)
  }

  lemma {:induction false} FindEventFinds(events: seq<TelemetryEvent>, id: string)
    ensures FindEvent(events, id).Some? <==> exists e :: e in events && e.id == id
    ensures FindEvent(events, id).Some? ==>
              FindEvent(events, id).value in events && FindEvent(events, id).value.id == id
  {
    if events != [] {
      FindEventFinds(events[..|events| - 1], id);
      assert events == events[..|events| - 1] + [events[|events| - 1]];
    }
  }

  // An item before it is built; content is None when serialization failed.
  datatype Draft = Draft(kind: string, refId: string, evidenceType: int, source: string, content: Option<string>)

  function EventDraft(id: string, events: seq<TelemetryEvent>, render: Rendering): Draft {
    match FindEvent(events, id)
    case None => Draft("event", id, LOG_EXCERPT, "", None)
    case Some(e) => Draft("event", id, LOG_EXCERPT, e.source, render.event(e))
  }

  function Drafts(alert: Alert, det: Detection, events: seq<TelemetryEvent>, render: Rendering): seq<Draft> {
    MapSeq(SortStrings(det.eventIds), id => EventDraft(id, events, render))
    + [Draft("detection", det.id, NOTE, SOURCE_DETECT, render.detection(det)),
       Draft("alert", alert.id, NOTE, SOURCE_DETECT, render.alert(alert))]
  }

  function NewItem(incidentId: string, d: Draft, now: Time): Option<Evidence> {
    if d.content.None? then None
    else if incidentId == "" || d.kind == "" || d.refId == "" then None
    else if now == ZERO_TIME then None
    else
      var ev := Evidence(EvidenceId(Slot(incidentId, d.kind, d.refId)), incidentId, d.evidenceType, Some(now),
                         d.source, MEDIA_JSON, Digest(d.content.value), d.content.value);
      if ValidEvidence(ev) then Some(ev) else None
  }

  // A built item verifies, and its id names its incident, kind and reference.
  lemma ItemStands(incidentId: string, d: Draft, now: Time)
    requires NewItem(incidentId, d, now).Some?
    ensures var ev := NewItem(incidentId, d, now).value;
            && Verify(ev) && ev.id == EvidenceId(Slot(incidentId, d.kind, d.refId))
            && d.content == Some(ev.content)
  {
    var content := d.content.value;
    assert content != "";
    HexLength(content[0] as nat, 6);
    assert Digest(content) != "";
  }

  predicate Supplied(incidentId: string, alert: Alert, det: Detection, events: seq<TelemetryEvent>, now: Time) {
    && incidentId != "" && ValidAlert(alert) && ValidDetection(det)
    && det.id in alert.detectionIds
    && (forall e | e in events :: ValidEvent(e))
    && (forall id | id in det.eventIds :: FindEvent(events, id).Some?)
    && now != ZERO_TIME
  }

  function Items(incidentId: string, drafts: seq<Draft>, now: Time): Option<seq<Evidence>> {
    if drafts == [] then Some([])
    else
      var front, last := Items(incidentId, drafts[..|drafts| - 1], now), NewItem(incidentId, drafts[|drafts| - 1], now);
      if front.Some? && last.Some? then Some(front.value + [last.value]) else None
  }

  // None is ErrEvidenceBuild.
  function Build(incidentId: string, alert: Alert, det: Detection, events: seq<TelemetryEvent>, now: Time,
                 render: Rendering): Option<seq<Evidence>>
  {
    if !Supplied(incidentId, alert, det, events, now) then None
    else Items(incidentId, Drafts(alert, det, events, render), now)
  }

  // All drafts become items in order, or nothing is returned.
  lemma {:induction false} ItemsFacts(incidentId: string, drafts: seq<Draft>, now: Time)
    ensures Items(incidentId, drafts, now).Some?
       <==> forall i :: 0 <= i < |drafts| ==> NewItem(incidentId, drafts[i], now).Some?
    ensures Items(incidentId, drafts, now).Some? ==>
              && |Items(incidentId, drafts, now).value| == |drafts|
              && forall i :: 0 <= i < |drafts| ==>
                   Some(Items(incidentId, drafts, now).value[i]) == NewItem(incidentId, drafts[i], now)
  {
    if drafts != [] {
      ItemsFacts(incidentId, drafts[..|drafts| - 1], now);
    }
  }

  // The item of a built set that records a draft.
  ghost predicate Records(items: seq<Evidence>, incidentId: string, d: Draft) {
    exists ev :: ev in items && ev.id == EvidenceId(Slot(incidentId, d.kind, d.refId)) && Verify(ev)
      && ev.incidentId == incidentId && ev.evidenceType == d.evidenceType && ev.source == d.source
      && d.content == Some(ev.content)
  }

  /** A built set misses nothing: one item for each contributing event with the event's own source and serialization, one
      for the detection and one for the alert. */
  lemma BuildCovers(incidentId: string, alert: Alert, det: Detection, events: seq<TelemetryEvent>, now: Time,
                    render: Rendering)
    requires Build(incidentId, alert, det, events, now, render).Some?
    ensures var items := Build(incidentId, alert, det, events, now, render).value;
            && |items| == |det.eventIds| + 2
            && (forall id :: id in det.eventIds ==>
                  var e := FindEvent(events, id).value;
                  Records(items, incidentId, Draft("event", id, LOG_EXCERPT, e.source, render.event(e))))
            && Records(items, incidentId, Draft("detection", det.id, NOTE, SOURCE_DETECT, render.detection(det)))
            && Records(items, incidentId, Draft("alert", alert.id, NOTE, SOURCE_DETECT, render.alert(alert)))
  {
    var drafts := Drafts(alert, det, events, render);
    ItemsFacts(incidentId, drafts, now);
    SortedMembers(det.eventIds);
    var ids, n := SortStrings(det.eventIds), |det.eventIds|;
    forall id | id in det.eventIds
      ensures Records(Items(incidentId, drafts, now).value, incidentId, EventDraft(id, events, render))
    {
      var i :| 0 <= i < |ids| && ids[i] == id;
      assert drafts[i] == EventDraft(id, events, render);
      DraftRecorded(incidentId, drafts, i, now);
    }
    DraftRecorded(incidentId, drafts, n, now);
    DraftRecorded(incidentId, drafts, n + 1, now);
  }

  lemma DraftRecorded(incidentId: string, drafts: seq<Draft>, i: nat, now: Time)
    requires i < |drafts| && Items(incidentId, drafts, now).Some?
    ensures Records(Items(incidentId, drafts, now).value, incidentId, drafts[i])
  {
    ItemsFacts(incidentId, drafts, now);
    ItemStands(incidentId, drafts[i], now);
    assert Items(incidentId, drafts, now).value[i] in Items(incidentId, drafts, now).value;
  }

  // One failed draft fails the whole set.
  lemma {:induction false} ItemsFail(incidentId: string, drafts: seq<Draft>, n: nat, now: Time)
    requires n <= |drafts| && Items(incidentId, drafts[..n], now).None?
    ensures Items(incidentId, drafts, now).None?
  {
    if n < |drafts| {
      assert drafts[..|drafts| - 1][..n] == drafts[..n];
      ItemsFail(incidentId, drafts[..|drafts| - 1], n, now);
    } else {
      assert drafts[..n] == drafts;
    }
  }

  method BuildForAlert(incidentId: string, alert: Alert, det: Detection, events: seq<TelemetryEvent>, now: Time,
                       render: Rendering)
    returns (r: Option<seq<Evidence>>)
    ensures r == Build(incidentId, alert, det, events, now, render)
  {
    if incidentId == "" || !ValidAlert(alert) || !ValidDetection(det) || det.id !in alert.detectionIds {
      return None;
    }
    var byId: map<string, TelemetryEvent> := map[];
    for i := 0 to |events|
      invariant forall e :: e in events[..i] ==> ValidEvent(e)
      invariant forall id :: id in byId <==> FindEvent(events[..i], id).Some?
      invariant forall id :: id in byId ==> FindEvent(events[..i], id) == Some(byId[id])
    {
      assert events[..i + 1][..i] == events[..i] && events[..i + 1] == events[..i] + [events[i]];
      if !ValidEvent(events[i]) {
        assert events[i] in events;
        return None;
      }
      byId := byId[events[i].id := events[i]];
    }
    assert events[..|events|] == events;
    if exists id | id in det.eventIds :: id !in byId {
      return None;
    }
    if now == ZERO_TIME {
      return None;
    }
    assert Supplied(incidentId, alert, det, events, now);
    r := Assemble(incidentId, alert, det, events, byId, now, render);
  }

  method Assemble(incidentId: string, alert: Alert, det: Detection, ghost events: seq<TelemetryEvent>,
                  byId: map<string, TelemetryEvent>, now: Time, render: Rendering)
    returns (r: Option<seq<Evidence>>)
    requires forall id :: id in det.eventIds ==> id in byId && FindEvent(events, id) == Some(byId[id])
    ensures r == Items(incidentId, Drafts(alert, det, events, render), now)
  {
    ghost var drafts := Drafts(alert, det, events, render);
    SortedMembers(det.eventIds);
    var out := [];
    var sorted := SortStrings(det.eventIds);
    for i := 0 to |sorted|
      invariant Items(incidentId, drafts[..i], now) == Some(out)
    {
      assert sorted[i] in det.eventIds;
      var e := byId[sorted[i]];
      var draft := Draft("event", sorted[i], LOG_EXCERPT, e.source, render.event(e));
      assert drafts[i] == draft;
      OneMoreItem(incidentId, drafts, i, now);
      var item := NewItem(incidentId, draft, now);
      if item.None? {
        return None;
      }
      out := out + [item.value];
    }
    r := Conclude(incidentId, alert, det, out, drafts, now, render);
  }

  // The last two items of a set: the detection's and the alert's.
  method Conclude(incidentId: string, alert: Alert, det: Detection, out: seq<Evidence>, ghost drafts: seq<Draft>,
                  now: Time, render: Rendering)
    returns (r: Option<seq<Evidence>>)
    requires |drafts| >= 2 && Items(incidentId, drafts[..|drafts| - 2], now) == Some(out)
    requires drafts[|drafts| - 2] == Draft("detection", det.id, NOTE, SOURCE_DETECT, render.detection(det))
    requires drafts[|drafts| - 1] == Draft("alert", alert.id, NOTE, SOURCE_DETECT, render.alert(alert))
    ensures r == Items(incidentId, drafts, now)
  {
    OneMoreItem(incidentId, drafts, |drafts| - 2, now);
    OneMoreItem(incidentId, drafts, |drafts| - 1, now);
    assert drafts[..|drafts|] == drafts;
    var detItem := NewItem(incidentId, Draft("detection", det.id, NOTE, SOURCE_DETECT, render.detection(det)), now);
    if detItem.None? {
      return None;
    }
    var alertItem := NewItem(incidentId, Draft("alert", alert.id, NOTE, SOURCE_DETECT, render.alert(alert)), now);
    if alertItem.None? {
      return None;
    }
    return Some(out + [detItem.value] + [alertItem.value]);
  }

  // One more draft adds its item, or fails the whole set.
  lemma OneMoreItem(incidentId: string, drafts: seq<Draft>, i: nat, now: Time)
    requires i < |drafts|
    ensures var was, item := Items(incidentId, drafts[..i], now), NewItem(incidentId, drafts[i], now);
            Items(incidentId, drafts[..i + 1], now)
              == if was.None? || item.None? then None else Some(was.value + [item.value])
    ensures Items(incidentId, drafts[..i + 1], now).None? ==> Items(incidentId, drafts, now).None?
  {
    assert drafts[..i + 1][..i] == drafts[..i];
    if Items(incidentId, drafts[..i + 1], now).None? {
      ItemsFail(incidentId, drafts, i + 1, now);
    }
  }

  lemma SortedMembers(xs: seq<string>)
    ensures forall x :: x in SortStrings(xs) <==> x in xs
    ensures |SortStrings(xs)| == |xs|
  {
    StrLeIsOrder();
    SortBySorts(xs, StrLe);
    MembersOfPermutation(SortStrings(xs), xs);
  }

  // ---------------------------------------------------------------------------
  // The store
  // ---------------------------------------------------------------------------

  function KeepFirst(items: map<string, Evidence>, e: Evidence): map<string, Evidence> {
    if e.id in items then items else items[e.id := e]
  }

  function KeepAll(items: map<string, Evidence>, es: seq<Evidence>): map<string, Evidence> {
    if es == [] then items else KeepFirst(KeepAll(items, es[..|es| - 1]), es[|es| - 1])
  }

  // Storing keeps what was there, adds every new id once, and adds nothing else.
  lemma {:induction false} KeepAllFacts(items: map<string, Evidence>, es: seq<Evidence>)
    ensures var after := KeepAll(items, es);
            && (forall id :: id in items ==> id in after && after[id] == items[id])
            && (forall e :: e in es ==> e.id in after)
            && (forall id :: id in after ==> id in items || (after[id] in es && after[id].id == id))
  {
    if es != [] {
      KeepAllFacts(items, es[..|es| - 1]);
      assert es == es[..|es| - 1] + [es[|es| - 1]];
    }
  }

  class Store {
    var items: map<string, Evidence>

    constructor ()
      ensures items == map[]
    {
      items := map[];
    }

    method Add(e: Evidence) returns (added: bool)
      modifies this
      ensures added == (e.id !in old(items)) && items == KeepFirst(old(items), e)
    {
      if e.id in items {
        return false;
      }
      items := items[e.id := e];
      return true;
    }
  }

  // ---------------------------------------------------------------------------
  // What an item records
  // ---------------------------------------------------------------------------

  // What keeps a draft from becoming an item: no serialization, an empty field, an unknown type, or a clock at zero.
  predicate Unwritable(incidentId: string, d: Draft, now: Time) {
    || d.content.None? || d.content == Some("") || incidentId == "" || d.kind == "" || d.refId == "" || d.source == ""
    || d.evidenceType < 1 || d.evidenceType > 6 || now == 0
  }

  /** An item is built exactly from what can be written. It is collected at the time of the call, as JSON, for the incident,
      with the type, the source and the content of its draft and the digest of that content. */
  lemma ItemMeans(incidentId: string, d: Draft, now: Time)
    ensures NewItem(incidentId, d, now).None? <==> Unwritable(incidentId, d, now)
    ensures NewItem(incidentId, d, now).Some? ==>
              var ev := NewItem(incidentId, d, now).value;
              && ev.incidentId == incidentId && ev.collectedAt == Some(now) && ev.mediaType == "application/json"
              && ev.evidenceType == d.evidenceType && ev.source == d.source && Some(ev.content) == d.content
              && ev.sha256 == Digest(ev.content) && ev.id == EvidenceId(Slot(incidentId, d.kind, d.refId))
  {
  }

  // Of several events under one id the last is the one recorded.
  ghost predicate LastUnder(events: seq<TelemetryEvent>, id: string, i: nat) {
    i < |events| && events[i].id == id && forall j :: i < j < |events| ==> events[j].id != id
  }

  lemma {:induction false} FoundIsLast(events: seq<TelemetryEvent>, id: string)
    ensures FindEvent(events, id).None? <==> forall i: nat :: !LastUnder(events, id, i)
    ensures forall i: nat :: LastUnder(events, id, i) ==> FindEvent(events, id) == Some(events[i])
  {
    if events != [] {
      var n := |events| - 1;
      FoundIsLast(events[..n], id);
      if events[n].id == id {
        assert LastUnder(events, id, n);
      } else {
        assert forall i: nat :: LastUnder(events, id, i) <==> LastUnder(events[..n], id, i);
      }
    }
  }
}
