/** The incident manager: alerts grouped by an explicit correlation id, and a one-step-forward lifecycle. */
module Incidents {
  import opened Base
  import opened Contract

  const INVESTIGATING: int := 2
  const CONTAINED: int := 3
  const RESOLVED: int := 4

  // One call's input: an alert, its detection and the events behind it.
  datatype Triple = Triple(alert: Alert, det: Detection, events: seq<TelemetryEvent>)

  datatype Record = Record(incident: Incident, alerts: set<string>, rules: set<string>, assets: set<string>)

  datatype Book = Book(byId: map<string, Record>, byKey: map<string, string>)

  datatype IncidentError = ErrIncidentBuild | ErrIncidentTransition | ErrIncidentNotFound

  datatype Answer = Kept(incident: Incident, created: bool) | Refused(error: IncidentError)

  datatype Stepped = Stepped(book: Book, answer: Answer)

  // ---------------------------------------------------------------------------
  // One step
  // ---------------------------------------------------------------------------

  function CorrelationOf(e: TelemetryEvent): string {
    Attr(e.attributes, CORRELATION_KEY)
  }

  // Grouping is explicit: a correlation id shared by all contributing events, else the alert alone.
  function KeyOf(t: Triple): string {
    if t.events != [] && CorrelationOf(t.events[0]) != ""
       && forall e | e in t.events :: CorrelationOf(e) == CorrelationOf(t.events[0])
    then "corr:" + CorrelationOf(t.events[0])
    else "alert:" + t.alert.id
  }

  function IncidentId(key: string): string {
    "inc-" + Digest("blueveil-incident-v1" + [SEPARATOR] + key)
  }

  lemma IncidentIdInjective(a: string, b: string)
    requires IncidentId(a) == IncidentId(b)
    ensures a == b
  {
    var prefix := "blueveil-incident-v1" + [SEPARATOR];
    assert IncidentId(a)[4..] == Digest(prefix + a) && IncidentId(b)[4..] == Digest(prefix + b);
    DigestInjective(prefix + a, prefix + b);
    assert (prefix + a)[|prefix|..] == a && (prefix + b)[|prefix|..] == b;
  }

  predicate Acceptable(t: Triple, now: Time) {
    && ValidAlert(t.alert) && ValidDetection(t.det)
    && t.det.id in t.alert.detectionIds
    && (forall id | id in t.det.eventIds :: exists e :: e in t.events && e.id == id)
    && now != ZERO_TIME
  }

  function AssetsOf(events: seq<TelemetryEvent>): set<string> {
    set e | e in events :: e.assetId
  }

  ghost function Summarize(alerts: set<string>, rules: set<string>, assets: set<string>): string {
    Decimal(|alerts|) + " alert(s); rule(s): " + Join(SortedKeys(rules), ',')
    + "; asset(s): " + Join(SortedKeys(assets), ',')
  }

  ghost function Opened(t: Triple, now: Time): Record {
    var assets := AssetsOf(t.events);
    Record(Incident(IncidentId(KeyOf(t)), [t.alert.id], INCIDENT_OPEN, t.alert.severity, Some(now), Some(now),
                    "Incident: " + t.alert.title, Summarize({t.alert.id}, {t.det.ruleId}, assets)),
           {t.alert.id}, {t.det.ruleId}, assets)
  }

  ghost function Attached(rec: Record, t: Triple, now: Time): Record {
    var alerts, rules, assets := rec.alerts + {t.alert.id}, rec.rules + {t.det.ruleId}, rec.assets + AssetsOf(t.events);
    Record(rec.incident.(alertIds := SortStrings(rec.incident.alertIds + [t.alert.id]),
                         severity := Max(rec.incident.severity, t.alert.severity),
                         updatedAt := Some(now),
                         summary := Summarize(alerts, rules, assets)),
           alerts, rules, assets)
  }

  ghost function IngestStep(b: Book, t: Triple, now: Time): Stepped {
    var key := KeyOf(t);
    if !Acceptable(t, now) then Stepped(b, Refused(ErrIncidentBuild))
    else if key in b.byKey && b.byKey[key] in b.byId then
      var id := b.byKey[key];
      var rec := b.byId[id];
      if t.alert.id in rec.alerts then Stepped(b, Kept(rec.incident, false))
      else
        var rec' := Attached(rec, t, now);
        Stepped(b.(byId := b.byId[id := rec']),
                if ValidIncident(rec'.incident) then Kept(rec'.incident, false) else Refused(ErrIncidentBuild))
    else
      var rec := Opened(t, now);
      if ValidIncident(rec.incident) then
        Stepped(Book(b.byId[rec.incident.id := rec], b.byKey[key := rec.incident.id]), Kept(rec.incident, true))
      else Stepped(b, Refused(ErrIncidentBuild))
  }

  // The whole lifecycle: one step forward, CLOSED is terminal.
  function NextStatus(status: int): Option<int> {
    if status == INCIDENT_OPEN then Some(INVESTIGATING)
    else if status == INVESTIGATING then Some(CONTAINED)
    else if status == CONTAINED then Some(RESOLVED)
    else if status == RESOLVED then Some(INCIDENT_CLOSED)
    else None
  }

  function Moved(inc: Incident, to: int, now: Time): Incident {
    inc.(status := to, updatedAt := Some(now))
  }

  function TransitionStep(b: Book, id: string, to: int, now: Time): Stepped {
    if id !in b.byId then Stepped(b, Refused(ErrIncidentNotFound))
    else
      var rec := b.byId[id];
      if NextStatus(rec.incident.status) != Some(to) then Stepped(b, Refused(ErrIncidentTransition))
      else if now == ZERO_TIME then Stepped(b, Refused(ErrIncidentBuild))
      else
        var inc := Moved(rec.incident, to, now);
        Stepped(b.(byId := b.byId[id := rec.(incident := inc)]),
                if ValidIncident(inc) then Kept(inc, false) else Refused(ErrIncidentBuild))
  }

  // ---------------------------------------------------------------------------
  // The invariant
  // ---------------------------------------------------------------------------

  ghost predicate SoundRecord(id: string, rec: Record) {
    && rec.incident.id == id && ValidIncident(rec.incident)
    && rec.alerts != {} && "" !in rec.alerts
    && rec.incident.alertIds == SortedKeys(rec.alerts)
    && rec.incident.summary == Summarize(rec.alerts, rec.rules, rec.assets)
  }

  // Keys and ids name each other.
  ghost predicate Indexed(ids: set<string>, byKey: map<string, string>) {
    && (forall key :: key in byKey ==> byKey[key] == IncidentId(key) && byKey[key] in ids)
    && (forall id :: id in ids ==> exists key :: key in byKey && byKey[key] == id)
  }

  ghost predicate SoundRecords(byId: map<string, Record>) {
    forall id :: id in byId ==> SoundRecord(id, byId[id])
  }

  ghost predicate Sound(b: Book) {
    Indexed(b.byId.Keys, b.byKey) && SoundRecords(b.byId)
  }

  lemma IndexGrows(ids: set<string>, byKey: map<string, string>, key: string)
    requires Indexed(ids, byKey) && key !in byKey
    ensures IncidentId(key) !in ids
    ensures Indexed(ids + {IncidentId(key)}, byKey[key := IncidentId(key)])
  {
    var byKey' := byKey[key := IncidentId(key)];
    forall id | id in ids ensures id != IncidentId(key) && exists k :: k in byKey' && byKey'[k] == id {
      var k :| k in byKey && byKey[k] == id;
      if id == IncidentId(key) {
        IncidentIdInjective(k, key);
      }
      assert byKey'[k] == id;
    }
    assert byKey'[key] == IncidentId(key);
  }

  lemma SingleKey(k: string)
    ensures SortedKeys({k}) == [k]
  {
    SortedKeysOf({k});
    assert SortedKeys({k})[0] in SortedKeys({k});
  }

  // Sorting the grown list lists the grown set: no duplicates, no gaps.
  lemma SortedKeysGrow(s: set<string>, k: string)
    requires k !in s
    ensures SortStrings(SortedKeys(s) + [k]) == SortedKeys(s + {k})
  {
    SortedKeysOf(s);
    ElementsMultiset(s + {k});
    assert multiset(SortedKeys(s) + [k]) == multiset(s + {k});
    SortStringsPermuted(SortedKeys(s) + [k], Elements(s + {k}));
  }

  lemma OpenedIsSound(t: Triple, now: Time)
    requires Acceptable(t, now)
    ensures SoundRecord(IncidentId(KeyOf(t)), Opened(t, now))
  {
    SingleKey(t.alert.id);
  }

  // Validation after a mutation cannot fail, so no half-updated incident is ever reported as an error.
  lemma AttachedIsSound(id: string, rec: Record, t: Triple, now: Time)
    requires SoundRecord(id, rec) && Acceptable(t, now) && t.alert.id !in rec.alerts
    ensures SoundRecord(id, Attached(rec, t, now))
  {
    SortedKeysGrow(rec.alerts, t.alert.id);
    SortedKeysOf(rec.alerts + {t.alert.id});
  }

  // The two ways an accepted ingestion changes the book.
  ghost function Added(b: Book, t: Triple, now: Time): Book {
    var key := KeyOf(t);
    Book(b.byId[IncidentId(key) := Opened(t, now)], b.byKey[key := IncidentId(key)])
  }

  ghost function Extended(b: Book, id: string, t: Triple, now: Time): Book
    requires id in b.byId
  {
    b.(byId := b.byId[id := Attached(b.byId[id], t, now)])
  }

  lemma RecordAdded(byId: map<string, Record>, id: string, rec: Record)
    requires SoundRecords(byId) && SoundRecord(id, rec)
    ensures SoundRecords(byId[id := rec]) && byId[id := rec].Keys == byId.Keys + {id}
  {
  }

  lemma AddedIsSound(b: Book, t: Triple, now: Time)
    requires Sound(b) && Acceptable(t, now) && KeyOf(t) !in b.byKey
    ensures Sound(Added(b, t, now)) && IncidentId(KeyOf(t)) !in b.byId
  {
    OpenedIsSound(t, now);
    IndexGrows(b.byId.Keys, b.byKey, KeyOf(t));
    RecordAdded(b.byId, IncidentId(KeyOf(t)), Opened(t, now));
  }

  lemma ExtendedIsSound(b: Book, id: string, t: Triple, now: Time)
    requires Sound(b) && Acceptable(t, now) && id in b.byId && t.alert.id !in b.byId[id].alerts
    ensures Sound(Extended(b, id, t, now))
  {
    AttachedIsSound(id, b.byId[id], t, now);
    assert Extended(b, id, t, now).byId.Keys == b.byId.Keys;
  }

  // What an ingestion does, with no failure after the checks.
  lemma IngestForm(b: Book, t: Triple, now: Time)
    requires Sound(b)
    ensures var s, key := IngestStep(b, t, now), KeyOf(t);
            if !Acceptable(t, now) then s == Stepped(b, Refused(ErrIncidentBuild))
            else if key !in b.byKey then s == Stepped(Added(b, t, now), Kept(Opened(t, now).incident, true))
            else if t.alert.id in b.byId[b.byKey[key]].alerts then
              s == Stepped(b, Kept(b.byId[b.byKey[key]].incident, false))
            else
              s == Stepped(Extended(b, b.byKey[key], t, now),
                           Kept(Attached(b.byId[b.byKey[key]], t, now).incident, false))
  {
    if Acceptable(t, now) {
      var key := KeyOf(t);
      if key !in b.byKey {
        OpenedIsSound(t, now);
      } else if t.alert.id !in b.byId[b.byKey[key]].alerts {
        AttachedIsSound(b.byKey[key], b.byId[b.byKey[key]], t, now);
      }
    }
  }

  lemma IngestSound(b: Book, t: Triple, now: Time)
    requires Sound(b)
    ensures Sound(IngestStep(b, t, now).book)
    ensures IngestStep(b, t, now).answer.Kept? <==> Acceptable(t, now)
    ensures Acceptable(t, now) ==> KeyOf(t) in IngestStep(b, t, now).book.byKey
  {
    IngestForm(b, t, now);
    if Acceptable(t, now) {
      if KeyOf(t) !in b.byKey {
        AddedIsSound(b, t, now);
      } else if t.alert.id !in b.byId[b.byKey[KeyOf(t)]].alerts {
        ExtendedIsSound(b, b.byKey[KeyOf(t)], t, now);
      }
    }
  }

  lemma RecordReplaced(byId: map<string, Record>, id: string, rec: Record)
    requires SoundRecords(byId) && SoundRecord(id, rec) && id in byId
    ensures SoundRecords(byId[id := rec]) && byId[id := rec].Keys == byId.Keys
  {
  }

  lemma MovedIsSound(id: string, rec: Record, to: int, now: Time)
    requires SoundRecord(id, rec) && INCIDENT_OPEN <= to <= INCIDENT_CLOSED
    ensures SoundRecord(id, rec.(incident := Moved(rec.incident, to, now)))
  {
  }

  // What a transition does, with no failure after the checks.
  lemma TransitionForm(b: Book, id: string, to: int, now: Time)
    requires SoundRecords(b.byId)
    ensures var s := TransitionStep(b, id, to, now);
            if id in b.byId && NextStatus(b.byId[id].incident.status) == Some(to) && now != ZERO_TIME then
              var inc := Moved(b.byId[id].incident, to, now);
              s == Stepped(b.(byId := b.byId[id := b.byId[id].(incident := inc)]), Kept(inc, false))
            else s.book == b && s.answer.Refused?
  {
    if id in b.byId && NextStatus(b.byId[id].incident.status) == Some(to) {
      MovedIsSound(id, b.byId[id], to, now);
    }
  }

  lemma TransitionSound(b: Book, id: string, to: int, now: Time)
    requires Sound(b)
    ensures Sound(TransitionStep(b, id, to, now).book)
    ensures TransitionStep(b, id, to, now).answer.Kept?
       <==> id in b.byId && NextStatus(b.byId[id].incident.status) == Some(to) && now != ZERO_TIME
  {
    TransitionForm(b, id, to, now);
    if id in b.byId && NextStatus(b.byId[id].incident.status) == Some(to) {
      var rec := b.byId[id];
      MovedIsSound(id, rec, to, now);
      RecordReplaced(b.byId, id, rec.(incident := Moved(rec.incident, to, now)));
    }
  }

  // An accepted triple is attached under its key.
  lemma IngestAttaches(b: Book, t: Triple, now: Time)
    requires Sound(b) && Acceptable(t, now)
    ensures var b', key := IngestStep(b, t, now).book, KeyOf(t);
            key in b'.byKey && b'.byKey[key] == IncidentId(key) && IncidentId(key) in b'.byId
            && t.alert.id in b'.byId[IncidentId(key)].alerts
  {
    IngestForm(b, t, now);
    if KeyOf(t) in b.byKey {
      assert b.byKey[KeyOf(t)] == IncidentId(KeyOf(t));
    }
  }

  // Ingesting an attached alert again changes nothing and answers the incident as it stands.
  lemma ReingestIsIdle(b: Book, t: Triple, now: Time, later: Time)
    requires Sound(b) && Acceptable(t, now) && later != ZERO_TIME
    ensures var b', id := IngestStep(b, t, now).book, IncidentId(KeyOf(t));
            && id in b'.byId && t.alert.id in b'.byId[id].alerts
            && IngestStep(b', t, later) == Stepped(b', Kept(b'.byId[id].incident, false))
  {
    IngestAttaches(b, t, now);
    IngestSound(b, t, now);
    IngestForm(IngestStep(b, t, now).book, t, later);
  }

  // ---------------------------------------------------------------------------
  // Runs
  // ---------------------------------------------------------------------------

  datatype Call = Ingest(triple: Triple, now: Time) | Transition(id: string, to: int, now: Time)

  ghost function StepOf(b: Book, c: Call): Stepped {
    match c
    case Ingest(t, now) => IngestStep(b, t, now)
    case Transition(id, to, now) => TransitionStep(b, id, to, now)
  }

  ghost function Run(calls: seq<Call>): Book {
    if calls == [] then Book(map[], map[]) else StepOf(Run(calls[..|calls| - 1]), calls[|calls| - 1]).book
  }

  lemma {:induction false} RunSound(calls: seq<Call>)
    ensures Sound(Run(calls))
  {
    if calls != [] {
      var front, c := calls[..|calls| - 1], calls[|calls| - 1];
      RunSound(front);
      match c
      case Ingest(t, now) => IngestSound(Run(front), t, now);
      case Transition(id, to, now) => TransitionSound(Run(front), id, to, now);
    }
  }

  // ---------------------------------------------------------------------------
  // The ledger: per key, what its alerts say
  // ---------------------------------------------------------------------------

  // What an accepted triple contributes.
  datatype Mark = Mark(key: string, alertId: string, ruleId: string, assets: set<string>, severity: Severity)

  datatype Profile = Profile(alerts: set<string>, rules: set<string>, assets: set<string>, severity: Severity)

  function MarkOf(t: Triple): Mark {
    Mark(KeyOf(t), t.alert.id, t.det.ruleId, AssetsOf(t.events), t.alert.severity)
  }

  function ProfileOf(rec: Record): Profile {
    Profile(rec.alerts, rec.rules, rec.assets, rec.incident.severity)
  }

  ghost function Ledger(b: Book): map<string, Profile> {
    map key | key in b.byKey && b.byKey[key] in b.byId :: ProfileOf(b.byId[b.byKey[key]])
  }

  function Joined(p: Profile, m: Mark): Profile {
    Profile(p.alerts + {m.alertId}, p.rules + {m.ruleId}, p.assets + m.assets, Max(p.severity, m.severity))
  }

  function Noted(ledger: map<string, Profile>, m: Mark): map<string, Profile> {
    if m.key !in ledger then ledger[m.key := Profile({m.alertId}, {m.ruleId}, m.assets, m.severity)]
    else if m.alertId in ledger[m.key].alerts then ledger
    else ledger[m.key := Joined(ledger[m.key], m)]
  }

  lemma LedgerOverwrites(byKey: map<string, string>, byId: map<string, Record>, key: string, rec: Record)
    requires Indexed(byId.Keys, byKey) && key in byKey
    ensures Ledger(Book(byId[byKey[key] := rec], byKey)) == Ledger(Book(byId, byKey))[key := ProfileOf(rec)]
  {
    forall k | k in byKey && k != key ensures byKey[k] != byKey[key] {
      if byKey[k] == byKey[key] {
        IncidentIdInjective(k, key);
      }
    }
  }

  lemma LedgerGrows(byKey: map<string, string>, byId: map<string, Record>, key: string, id: string, rec: Record)
    requires key !in byKey && id !in byId && forall k :: k in byKey ==> byKey[k] in byId
    ensures Ledger(Book(byId[id := rec], byKey[key := id])) == Ledger(Book(byId, byKey))[key := ProfileOf(rec)]
  {
  }

  // An accepted ingestion notes its mark, and nothing else touches the ledger.
  lemma IngestNotes(b: Book, t: Triple, now: Time)
    requires Sound(b)
    ensures Ledger(IngestStep(b, t, now).book)
         == if Acceptable(t, now) then Noted(Ledger(b), MarkOf(t)) else Ledger(b)
  {
    IngestForm(b, t, now);
    if Acceptable(t, now) {
      var key := KeyOf(t);
      assert key in b.byKey ==> key in Ledger(b) && Ledger(b)[key] == ProfileOf(b.byId[b.byKey[key]]);
      if key !in b.byKey {
        AddedIsSound(b, t, now);
        LedgerGrows(b.byKey, b.byId, key, IncidentId(key), Opened(t, now));
      } else if t.alert.id !in b.byId[b.byKey[key]].alerts {
        LedgerOverwrites(b.byKey, b.byId, key, Attached(b.byId[b.byKey[key]], t, now));
      }
    }
  }

  lemma TransitionNotes(b: Book, id: string, to: int, now: Time)
    requires Indexed(b.byId.Keys, b.byKey)
    ensures Ledger(TransitionStep(b, id, to, now).book) == Ledger(b)
  {
    var b' := TransitionStep(b, id, to, now).book;
    if b' != b {
      var rec' := b.byId[id].(incident := Moved(b.byId[id].incident, to, now));
      assert b' == Book(b.byId[id := rec'], b.byKey);
      var key :| key in b.byKey && b.byKey[key] == id;
      assert Ledger(b)[key] == ProfileOf(b.byId[id]) == ProfileOf(rec');
      LedgerOverwrites(b.byKey, b.byId, key, rec');
    }
  }

  // An alert id always arrives with the same contents.
  ghost predicate Consistent(marks: set<Mark>) {
    forall s, t :: s in marks && t in marks && s.alertId == t.alertId ==> s == t
  }

  // The marks behind one key.
  function Group(marks: set<Mark>, key: string): set<Mark> {
    set m | m in marks && m.key == key
  }

  // A profile tells exactly what its group of marks says, whatever the order they came in.
  ghost predicate Tells(p: Profile, group: set<Mark>) {
    && (forall id :: id in p.alerts <==> exists m :: m in group && m.alertId == id)
    && (forall id :: id in p.rules <==> exists m :: m in group && m.ruleId == id)
    && (forall id :: id in p.assets <==> exists m :: m in group && id in m.assets)
    && (exists m :: m in group && m.severity == p.severity)
    && (forall m :: m in group ==> m.severity <= p.severity)
  }

  ghost predicate Describes(ledger: map<string, Profile>, marks: set<Mark>) {
    && (forall m :: m in marks ==> m.key in ledger)
    && (forall key :: key in ledger ==> Tells(ledger[key], Group(marks, key)))
  }

  lemma TellsUnique(p: Profile, q: Profile, group: set<Mark>)
    requires Tells(p, group) && Tells(q, group)
    ensures p == q
  {
    assert p.alerts == q.alerts && p.rules == q.rules && p.assets == q.assets;
  }

  lemma JoinedTells(p: Profile, group: set<Mark>, m: Mark)
    requires Tells(p, group)
    ensures Tells(Joined(p, m), group + {m})
  {
    var q, all := Joined(p, m), group + {m};
    assert m in all;
    forall id ensures id in q.alerts <==> exists x :: x in all && x.alertId == id {
      if id in p.alerts {
        var x :| x in group && x.alertId == id;
        assert x in all;
      }
    }
    forall id ensures id in q.rules <==> exists x :: x in all && x.ruleId == id {
      if id in p.rules {
        var x :| x in group && x.ruleId == id;
        assert x in all;
      }
    }
    forall id ensures id in q.assets <==> exists x :: x in all && id in x.assets {
      if id in p.assets {
        var x :| x in group && id in x.assets;
        assert x in all;
      }
    }
    var top :| top in group && top.severity == p.severity;
    assert top in all;
  }

  lemma GroupOfNew(marks: set<Mark>, m: Mark, key: string)
    ensures Group(marks + {m}, key) == if m.key == key then Group(marks, key) + {m} else Group(marks, key)
  {
  }

  lemma FreshTells(marks: set<Mark>, m: Mark)
    requires Group(marks, m.key) == {}
    ensures Tells(Profile({m.alertId}, {m.ruleId}, m.assets, m.severity), Group(marks + {m}, m.key))
  {
    GroupOfNew(marks, m, m.key);
    assert Group(marks + {m}, m.key) == {m} && m in {m};
  }

  lemma ToldAlert(p: Profile, group: set<Mark>, alertId: string) returns (m: Mark)
    requires Tells(p, group) && alertId in p.alerts
    ensures m in group && m.alertId == alertId
  {
    m :| m in group && m.alertId == alertId;
  }

  // An alert that is already listed came with this very mark.
  lemma AlreadyTold(ledger: map<string, Profile>, marks: set<Mark>, m: Mark)
    requires m.key in ledger && Tells(ledger[m.key], Group(marks, m.key)) && Consistent(marks + {m})
    requires m.alertId in ledger[m.key].alerts
    ensures Group(marks + {m}, m.key) == Group(marks, m.key)
  {
    var s := ToldAlert(ledger[m.key], Group(marks, m.key), m.alertId);
    SameMark(marks + {m}, s, m);
    GroupOfNew(marks, m, m.key);
    assert Group(marks, m.key) + {m} == Group(marks, m.key);
  }

  lemma SameMark(marks: set<Mark>, s: Mark, t: Mark)
    requires Consistent(marks) && s in marks && t in marks && s.alertId == t.alertId
    ensures s == t
  {
  }

  lemma NotedTells(ledger: map<string, Profile>, marks: set<Mark>, m: Mark)
    requires Describes(ledger, marks) && Consistent(marks + {m})
    ensures Tells(Noted(ledger, m)[m.key], Group(marks + {m}, m.key))
  {
    if m.key !in ledger {
      assert Group(marks, m.key) == {};
      FreshTells(marks, m);
    } else if m.alertId in ledger[m.key].alerts {
      AlreadyTold(ledger, marks, m);
    } else {
      GroupOfNew(marks, m, m.key);
      JoinedTells(ledger[m.key], Group(marks, m.key), m);
    }
  }

  lemma NotedDescribes(ledger: map<string, Profile>, marks: set<Mark>, m: Mark)
    requires Describes(ledger, marks) && Consistent(marks + {m})
    ensures Describes(Noted(ledger, m), marks + {m})
  {
    NotedTells(ledger, marks, m);
    NotedIsUpdate(ledger, m);
    DescribesUpdated(ledger, marks, m, Noted(ledger, m)[m.key]);
  }

  lemma NotedIsUpdate(ledger: map<string, Profile>, m: Mark)
    ensures m.key in Noted(ledger, m) && Noted(ledger, m) == ledger[m.key := Noted(ledger, m)[m.key]]
  {
  }

  lemma DescribesUpdated(ledger: map<string, Profile>, marks: set<Mark>, m: Mark, p: Profile)
    requires Describes(ledger, marks) && Tells(p, Group(marks + {m}, m.key))
    ensures Describes(ledger[m.key := p], marks + {m})
  {
    forall k | k in ledger && k != m.key ensures Tells(ledger[k], Group(marks + {m}, k)) {
      GroupOfNew(marks, m, k);
    }
  }

  // The marks of the triples a run has accepted.
  function Accepted(calls: seq<Call>): set<Mark> {
    if calls == [] then {}
    else
      var c := calls[|calls| - 1];
      if c.Ingest? && Acceptable(c.triple, c.now) then Accepted(calls[..|calls| - 1]) + {MarkOf(c.triple)}
      else Accepted(calls[..|calls| - 1])
  }

  // At every moment of every run the incidents are those the accepted triples describe.
  lemma {:induction false} RunDescribes(calls: seq<Call>)
    requires Consistent(Accepted(calls))
    ensures Describes(Ledger(Run(calls)), Accepted(calls))
  {
    if calls != [] {
      var front, c := calls[..|calls| - 1], calls[|calls| - 1];
      RunDescribes(front);
      RunSound(front);
      match c
      case Ingest(t, now) =>
        IngestNotes(Run(front), t, now);
        if Acceptable(t, now) {
          NotedDescribes(Ledger(Run(front)), Accepted(front), MarkOf(t));
        }
      case Transition(id, to, now) =>
        TransitionNotes(Run(front), id, to, now);
    }
  }

  lemma LedgerUnique(a: map<string, Profile>, b: map<string, Profile>, marks: set<Mark>)
    requires Describes(a, marks) && Describes(b, marks)
    ensures a == b
  {
    forall key | key in a ensures key in b && a[key] == b[key] {
      var m :| m in Group(marks, key) && m.severity == a[key].severity;
      TellsUnique(a[key], b[key], Group(marks, key));
    }
    forall key | key in b ensures key in a {
      var m :| m in Group(marks, key) && m.severity == b[key].severity;
      assert m in marks;
    }
  }

  // An incident without its title, timestamps and lifecycle status.
  datatype Core = Core(alertIds: seq<string>, severity: Severity, summary: string)

  function CoreOf(inc: Incident): Core {
    Core(inc.alertIds, inc.severity, inc.summary)
  }

  lemma SameCore(id: string, r: Record, s: Record)
    requires SoundRecord(id, r) && SoundRecord(id, s) && ProfileOf(r) == ProfileOf(s)
    ensures CoreOf(r.incident) == CoreOf(s.incident)
  {
  }

  ghost predicate SameCores(a: Book, b: Book) {
    && a.byKey == b.byKey && a.byId.Keys == b.byId.Keys
    && (forall id :: id in a.byId && id in b.byId ==> CoreOf(a.byId[id].incident) == CoreOf(b.byId[id].incident))
  }

  lemma LedgerKeys(b: Book)
    requires Indexed(b.byId.Keys, b.byKey)
    ensures Ledger(b).Keys == b.byKey.Keys
  {
  }

  lemma LedgerDetermines(a: Book, b: Book)
    requires Sound(a) && Sound(b) && Ledger(a) == Ledger(b)
    ensures SameCores(a, b)
  {
    LedgerKeys(a);
    LedgerKeys(b);
    IdsFromKeys(a, b);
    IdsFromKeys(b, a);
    forall id | id in a.byId && id in b.byId ensures CoreOf(a.byId[id].incident) == CoreOf(b.byId[id].incident) {
      SameProfile(a, b, id);
      SameCore(id, a.byId[id], b.byId[id]);
    }
  }

  lemma SameProfile(a: Book, b: Book, id: string)
    requires Indexed(a.byId.Keys, a.byKey) && a.byKey == b.byKey && Ledger(a) == Ledger(b)
    requires id in a.byId && id in b.byId
    ensures ProfileOf(a.byId[id]) == ProfileOf(b.byId[id])
  {
    var key :| key in a.byKey && a.byKey[key] == id;
    assert Ledger(a)[key] == ProfileOf(a.byId[id]) && Ledger(b)[key] == ProfileOf(b.byId[id]);
  }

  lemma IdsFromKeys(a: Book, b: Book)
    requires Indexed(a.byId.Keys, a.byKey) && Indexed(b.byId.Keys, b.byKey) && a.byKey.Keys == b.byKey.Keys
    ensures a.byKey == b.byKey && a.byId.Keys <= b.byId.Keys
  {
    forall key | key in a.byKey ensures key in b.byKey && a.byKey[key] == b.byKey[key] {
      assert key in a.byKey.Keys;
    }
    forall key | key in b.byKey ensures key in a.byKey {
      assert key in b.byKey.Keys;
    }
    forall id | id in a.byId.Keys ensures id in b.byId.Keys {
      var key :| key in a.byKey && a.byKey[key] == id;
    }
  }

  /** Confluence: two runs that accepted the same triples, in any order, with any repetitions and any lifecycle moves in
      between, hold the same incidents up to titles, timestamps and status. */
  lemma Confluence(one: seq<Call>, other: seq<Call>)
    requires Accepted(one) == Accepted(other) && Consistent(Accepted(one))
    ensures SameCores(Run(one), Run(other))
  {
    RunDescribes(one);
    RunDescribes(other);
    RunSound(one);
    RunSound(other);
    LedgerUnique(Ledger(Run(one)), Ledger(Run(other)), Accepted(one));
    LedgerDetermines(Run(one), Run(other));
  }

  // Where an alert is.
  ghost predicate AttachedTo(b: Book, alertId: string, id: string) {
    id in b.byId && alertId in b.byId[id].alerts
  }

  lemma AttachedByLedger(b: Book, alertId: string, key: string)
    requires Sound(b)
    ensures AttachedTo(b, alertId, IncidentId(key)) <==> key in Ledger(b) && alertId in Ledger(b)[key].alerts
  {
    if AttachedTo(b, alertId, IncidentId(key)) {
      var k :| k in b.byKey && b.byKey[k] == IncidentId(key);
      IncidentIdInjective(k, key);
    }
  }

  lemma AttachedOnce(b: Book, marks: set<Mark>, m: Mark)
    requires Sound(b) && Describes(Ledger(b), marks) && Consistent(marks) && m in marks
    ensures forall id :: AttachedTo(b, m.alertId, id) <==> id == IncidentId(m.key)
  {
    assert m in Group(marks, m.key);
    AttachedByLedger(b, m.alertId, m.key);
    forall id | AttachedTo(b, m.alertId, id) ensures id == IncidentId(m.key) {
      var key :| key in b.byKey && b.byKey[key] == id;
      AttachedByLedger(b, m.alertId, key);
      var s :| s in Group(marks, key) && s.alertId == m.alertId;
    }
  }

  // The ledger lists under each key exactly the alerts of its marks, consistent or not.
  ghost predicate Lists(ledger: map<string, Profile>, marks: set<Mark>) {
    && (forall m :: m in marks ==> m.key in ledger && m.alertId in ledger[m.key].alerts)
    && (forall key, a :: key in ledger && a in ledger[key].alerts ==>
          exists m :: m in marks && m.key == key && m.alertId == a)
  }

  lemma NotedLists(ledger: map<string, Profile>, marks: set<Mark>, m: Mark)
    requires Lists(ledger, marks)
    ensures Lists(Noted(ledger, m), marks + {m})
  {
    var ledger', marks' := Noted(ledger, m), marks + {m};
    forall key, a | key in ledger' && a in ledger'[key].alerts
      ensures exists x :: x in marks' && x.key == key && x.alertId == a
    {
      if key in ledger && a in ledger[key].alerts {
        var x :| x in marks && x.key == key && x.alertId == a;
        assert x in marks';
      } else {
        assert m in marks' && m.key == key && m.alertId == a;
      }
    }
  }

  lemma {:induction false} RunLists(calls: seq<Call>)
    ensures Lists(Ledger(Run(calls)), Accepted(calls))
  {
    if calls != [] {
      var front, c := calls[..|calls| - 1], calls[|calls| - 1];
      RunLists(front);
      RunSound(front);
      match c
      case Ingest(t, now) =>
        IngestNotes(Run(front), t, now);
        if Acceptable(t, now) {
          NotedLists(Ledger(Run(front)), Accepted(front), MarkOf(t));
        }
      case Transition(id, to, now) =>
        TransitionNotes(Run(front), id, to, now);
    }
  }

  // Some accepted triple of the alert has the key.
  ghost predicate Keyed(marks: set<Mark>, alertId: string, key: string) {
    exists m :: m in marks && m.alertId == alertId && m.key == key
  }

  /** In every run an alert is attached to the incidents of the keys its accepted triples had, and to no other. */
  lemma AttachedExactly(calls: seq<Call>, alertId: string, id: string)
    ensures AttachedTo(Run(calls), alertId, id)
       <==> exists key :: Keyed(Accepted(calls), alertId, key) && id == IncidentId(key)
  {
    RunSound(calls);
    RunLists(calls);
    var b, marks := Run(calls), Accepted(calls);
    if AttachedTo(b, alertId, id) {
      var key :| key in b.byKey && b.byKey[key] == id;
      AttachedByLedger(b, alertId, key);
      assert Keyed(marks, alertId, key);
    }
    forall key | Keyed(marks, alertId, key) ensures AttachedTo(b, alertId, IncidentId(key)) {
      var m :| m in marks && m.alertId == alertId && m.key == key;
      AttachedByLedger(b, alertId, key);
    }
  }

  ghost predicate InOneIncident(b: Book, alertId: string) {
    forall id, jd :: AttachedTo(b, alertId, id) && AttachedTo(b, alertId, jd) ==> id == jd
  }

  ghost predicate OneKey(marks: set<Mark>, alertId: string) {
    forall s, t :: s in marks && t in marks && s.alertId == t.alertId == alertId ==> s.key == t.key
  }

  /** In every run an alert is in at most one incident exactly when all its accepted triples have one key. */
  lemma OneIncidentPerAlert(calls: seq<Call>, alertId: string)
    ensures InOneIncident(Run(calls), alertId) <==> OneKey(Accepted(calls), alertId)
  {
    var b, marks := Run(calls), Accepted(calls);
    if InOneIncident(b, alertId) {
      forall s, t | s in marks && t in marks && s.alertId == t.alertId == alertId ensures s.key == t.key {
        assert Keyed(marks, alertId, s.key) && Keyed(marks, alertId, t.key);
        AttachedExactly(calls, alertId, IncidentId(s.key));
        AttachedExactly(calls, alertId, IncidentId(t.key));
        IncidentIdInjective(s.key, t.key);
      }
    }
    if OneKey(marks, alertId) {
      forall id, jd | AttachedTo(b, alertId, id) && AttachedTo(b, alertId, jd) ensures id == jd {
        AttachedExactly(calls, alertId, id);
        AttachedExactly(calls, alertId, jd);
      }
    }
  }

  // Two accepted triples of one alert with two keys put it into two incidents.
  lemma SameAlertTwoIncidents(t: Triple, u: Triple, now: Time)
    requires Acceptable(t, now) && Acceptable(u, now) && t.alert == u.alert && KeyOf(t) != KeyOf(u)
    ensures var b := Run([Ingest(t, now), Ingest(u, now)]);
            && AttachedTo(b, t.alert.id, IncidentId(KeyOf(t))) && AttachedTo(b, t.alert.id, IncidentId(KeyOf(u)))
            && IncidentId(KeyOf(t)) != IncidentId(KeyOf(u))
  {
    var one := [Ingest(t, now)];
    var two := [Ingest(t, now), Ingest(u, now)];
    assert one[..0] == [] && two[..1] == one;
    assert Run([]) == Book(map[], map[]);
    assert Run(one) == StepOf(Run([]), one[0]).book;
    assert Run(two) == StepOf(Run(one), two[1]).book;
    RunSound([]);
    OpenedIsSound(t, now);
    OpenedIsSound(u, now);
    if IncidentId(KeyOf(t)) == IncidentId(KeyOf(u)) {
      IncidentIdInjective(KeyOf(t), KeyOf(u));
    }
  }

  // There are such triples: one alert told twice, by the same event under two correlation ids.
  lemma TwoKeysHappen()
    ensures exists t, u, now :: Acceptable(t, now) && Acceptable(u, now) && t.alert == u.alert && KeyOf(t) != KeyOf(u)
  {
    var t, u := Told("x"), Told("y");
    assert t.events[0] in t.events && u.events[0] in u.events;
    assert KeyOf(t) == "corr:" + "x" && KeyOf(u) == "corr:" + "y";
    assert KeyOf(t)[5] == 'x' && KeyOf(u)[5] == 'y';
    assert Acceptable(t, 1) && Acceptable(u, 1);
  }

  function Told(correlationId: string): Triple {
    Triple(Alert("alert", ["det"], ALERT_OPEN, LOW, Some(1), Some(1), "title"),
           Detection("det", "rule", "name", ["event"], Some(1), LOW, 0.0, "title", "detail", map[]),
           [TelemetryEvent("event", Some(1), "source", "asset", "type", LOW, map[CORRELATION_KEY := correlationId])])
  }

  // ---------------------------------------------------------------------------
  // What a call leaves alone
  // ---------------------------------------------------------------------------

  function AddressedBy(c: Call): string {
    match c
    case Ingest(t, _) => IncidentId(KeyOf(t))
    case Transition(id, _, _) => id
  }

  // Title and creation time never change, a changed incident carries the time of the call that changed it.
  ghost predicate Stamped(before: Record, after: Record, now: Time) {
    && after.incident.title == before.incident.title && after.incident.createdAt == before.incident.createdAt
    && (after == before || after.incident.updatedAt == Some(now))
  }

  // A call changes no incident but the one it addresses, and removes none.
  lemma CallTouchesOne(b: Book, c: Call, id: string)
    requires Sound(b) && id in b.byId
    ensures var b' := StepOf(b, c).book;
            && id in b'.byId && Stamped(b.byId[id], b'.byId[id], c.now)
            && (id != AddressedBy(c) ==> b'.byId[id] == b.byId[id])
  {
    if c.Ingest? {
      IngestTouchesOne(b, c.triple, c.now, id);
    } else {
      TransitionForm(b, c.id, c.to, c.now);
    }
  }

  lemma IngestTouchesOne(b: Book, t: Triple, now: Time, id: string)
    requires Sound(b) && id in b.byId
    ensures var b' := IngestStep(b, t, now).book;
            && id in b'.byId && Stamped(b.byId[id], b'.byId[id], now)
            && (id != IncidentId(KeyOf(t)) ==> b'.byId[id] == b.byId[id])
  {
    IngestForm(b, t, now);
    var b' := IngestStep(b, t, now).book;
    if Acceptable(t, now) && KeyOf(t) !in b.byKey {
      IndexGrows(b.byId.Keys, b.byKey, KeyOf(t));
      AddedTouches(b, t, now, id);
    } else if b' != b {
      ExtendedTouches(b, b.byKey[KeyOf(t)], t, now, id);
    }
  }

  lemma AddedTouches(b: Book, t: Triple, now: Time, id: string)
    requires id in b.byId && id != IncidentId(KeyOf(t))
    ensures id in Added(b, t, now).byId && Added(b, t, now).byId[id] == b.byId[id]
  {
  }

  lemma ExtendedTouches(b: Book, i: string, t: Triple, now: Time, id: string)
    requires i in b.byId && id in b.byId
    ensures var b' := Extended(b, i, t, now);
            && id in b'.byId && Stamped(b.byId[id], b'.byId[id], now) && (id != i ==> b'.byId[id] == b.byId[id])
  {
  }

  // ---------------------------------------------------------------------------
  // Lifecycle
  // ---------------------------------------------------------------------------

  // How often a run has moved one incident.
  ghost function Moves(calls: seq<Call>, id: string): nat {
    if calls == [] then 0
    else
      var front, c := calls[..|calls| - 1], calls[|calls| - 1];
      Moves(front, id) + if MovedBy(Run(front), c, id) then 1 else 0
  }

  ghost predicate MovedBy(b: Book, c: Call, id: string) {
    c.Transition? && c.id == id && StepOf(b, c).answer.Kept?
  }

  function StatusOf(byId: map<string, Record>, id: string): Option<int> {
    if id in byId then Some(byId[id].incident.status) else None
  }

  // Ingestion keeps every status and opens new incidents as OPEN.
  lemma IngestStatus(b: Book, t: Triple, now: Time, id: string)
    requires Sound(b)
    ensures var after := StatusOf(IngestStep(b, t, now).book.byId, id);
            after == StatusOf(b.byId, id) || (id !in b.byId && after == Some(INCIDENT_OPEN))
  {
    IngestForm(b, t, now);
    if Acceptable(t, now) {
      var key := KeyOf(t);
      if key !in b.byKey {
        IndexGrows(b.byId.Keys, b.byKey, key);
        StatusReplaced(b.byId, IncidentId(key), Opened(t, now), id);
      } else {
        StatusReplaced(b.byId, b.byKey[key], Attached(b.byId[b.byKey[key]], t, now), id);
      }
    }
  }

  // A transition moves one incident one step.
  lemma TransitionStatus(b: Book, i: string, to: int, now: Time, id: string)
    requires SoundRecords(b.byId)
    ensures var s := TransitionStep(b, i, to, now);
            var advance := if s.answer.Kept? && id == i then 1 else 0;
            StatusOf(s.book.byId, id)
              == if id in b.byId then Some(b.byId[id].incident.status + advance) else None
    ensures TransitionStep(b, i, to, now).answer.Kept? ==> i in b.byId
  {
    TransitionForm(b, i, to, now);
    if i in b.byId && NextStatus(b.byId[i].incident.status) == Some(to) && now != ZERO_TIME {
      NextIsSuccessor(b.byId[i].incident.status, to);
      var rec := b.byId[i].(incident := Moved(b.byId[i].incident, to, now));
      StatusReplaced(b.byId, i, rec, id);
      assert rec.incident.status == to;
    }
  }

  lemma NextIsSuccessor(status: int, to: int)
    requires NextStatus(status) == Some(to)
    ensures to == status + 1
  {
  }

  lemma StatusReplaced(byId: map<string, Record>, i: string, rec: Record, id: string)
    ensures StatusOf(byId[i := rec], id) == if id == i then Some(rec.incident.status) else StatusOf(byId, id)
  {
  }

  // A status is counted in steps from OPEN; None before the incident exists.
  predicate Advances(before: Option<int>, after: Option<int>, moved: bool) {
    match before
    case Some(status) => after == Some(status + if moved then 1 else 0)
    case None => !moved && (after == None || after == Some(INCIDENT_OPEN))
  }

  lemma StepAdvances(b: Book, c: Call, id: string)
    requires Sound(b)
    ensures Advances(StatusOf(b.byId, id), StatusOf(StepOf(b, c).book.byId, id), MovedBy(b, c, id))
  {
    if c.Ingest? {
      IngestAdvances(b, c.triple, c.now, id);
    } else {
      TransitionAdvances(b, c.id, c.to, c.now, id);
    }
  }

  lemma IngestAdvances(b: Book, t: Triple, now: Time, id: string)
    requires Sound(b)
    ensures Advances(StatusOf(b.byId, id), StatusOf(IngestStep(b, t, now).book.byId, id), false)
  {
    IngestStatus(b, t, now, id);
  }

  lemma TransitionAdvances(b: Book, i: string, to: int, now: Time, id: string)
    requires SoundRecords(b.byId)
    ensures var s := TransitionStep(b, i, to, now);
            Advances(StatusOf(b.byId, id), StatusOf(s.book.byId, id), i == id && s.answer.Kept?)
  {
    TransitionStatus(b, i, to, now, id);
  }

  lemma StatusBounded(b: Book, id: string)
    requires SoundRecords(b.byId) && id in b.byId
    ensures StatusOf(b.byId, id) == Some(b.byId[id].incident.status)
    ensures b.byId[id].incident.status <= INCIDENT_CLOSED
  {
    assert SoundRecord(id, b.byId[id]);
  }

  lemma {:induction false} StatusIsCount(calls: seq<Call>, id: string)
    ensures match StatusOf(Run(calls).byId, id)
            case Some(status) => status == INCIDENT_OPEN + Moves(calls, id)
            case None => Moves(calls, id) == 0
  {
    if calls != [] {
      var front, c := calls[..|calls| - 1], calls[|calls| - 1];
      StatusIsCount(front, id);
      RunSound(front);
      StepAdvances(Run(front), c, id);
      assert Run(calls) == StepOf(Run(front), c).book;
    }
  }

  /** Status only ever advances one step per accepted transition, so an incident moves at most four times. */
  lemma StatusCountsMoves(calls: seq<Call>, id: string)
    ensures id in Run(calls).byId ==> Run(calls).byId[id].incident.status == INCIDENT_OPEN + Moves(calls, id)
    ensures id !in Run(calls).byId ==> Moves(calls, id) == 0
    ensures Moves(calls, id) <= 4
  {
    StatusIsCount(calls, id);
    RunSound(calls);
    if id in Run(calls).byId {
      StatusBounded(Run(calls), id);
    }
  }

  // ---------------------------------------------------------------------------
  // The manager
  // ---------------------------------------------------------------------------

  method CorrelationKey(alert: Alert, events: seq<TelemetryEvent>, ghost det: Detection) returns (key: string)
    ensures key == KeyOf(Triple(alert, det, events))
  {
    var shared := "";
    for i := 0 to |events|
      invariant i == 0 ==> shared == ""
      invariant i > 0 ==> shared == CorrelationOf(events[0]) && shared != ""
      invariant forall j :: 0 <= j < i ==> CorrelationOf(events[j]) == shared
    {
      var c := Attr(events[i].attributes, CORRELATION_KEY);
      if c == "" || (i > 0 && c != shared) {
        assert events[i] in events && CorrelationOf(events[i]) == c;
        return "alert:" + alert.id;
      }
      shared := c;
    }
    if shared == "" {
      return "alert:" + alert.id;
    }
    return "corr:" + shared;
  }

  method SummaryOf(alerts: set<string>, rules: set<string>, assets: set<string>) returns (text: string)
    ensures text == Summarize(alerts, rules, assets)
  {
    var ruleNames := SortKeys(rules);
    var assetNames := SortKeys(assets);
    return Decimal(|alerts|) + " alert(s); rule(s): " + Join(ruleNames, ',') + "; asset(s): " + Join(assetNames, ',');
  }

  method Check(alert: Alert, det: Detection, events: seq<TelemetryEvent>, now: Time) returns (ok: bool)
    ensures ok == Acceptable(Triple(alert, det, events), now)
  {
    if !ValidAlert(alert) || !ValidDetection(det) || det.id !in alert.detectionIds {
      return false;
    }
    var supplied := set e | e in events :: e.id;
    if exists id | id in det.eventIds :: id !in supplied {
      return false;
    }
    return now != ZERO_TIME;
  }

  class Manager {
    var byId: map<string, Record>
    var byKey: map<string, string>

    ghost function Current(): Book
      reads this
    {
      Book(byId, byKey)
    }

    ghost predicate Valid()
      reads this
    {
      Sound(Current())
    }

    constructor ()
      ensures Current() == Run([]) && Valid()
    {
      byId, byKey := map[], map[];
    }

    method Ingest(alert: Alert, det: Detection, events: seq<TelemetryEvent>, now: Time) returns (r: Answer)
      requires Valid()
      modifies this
      ensures Valid()
      ensures Stepped(Current(), r) == IngestStep(old(Current()), Triple(alert, det, events), now)
    {
      ghost var t := Triple(alert, det, events);
      IngestSound(Current(), t, now);
      var ok := Check(alert, det, events, now);
      if !ok {
        return Refused(ErrIncidentBuild);
      }
      r := Fold(alert, det, events, now);
    }

    method Fold(alert: Alert, det: Detection, events: seq<TelemetryEvent>, now: Time) returns (r: Answer)
      requires Acceptable(Triple(alert, det, events), now)
      requires forall key :: key in byKey ==> byKey[key] in byId
      modifies this
      ensures Stepped(Current(), r) == IngestStep(old(Current()), Triple(alert, det, events), now)
    {
      var key := CorrelationKey(alert, events, det);
      if key in byKey {
        r := Attach(byKey[key], alert, det, events, now);
      } else {
        r := Open(key, alert, det, events, now);
      }
    }

    method Open(key: string, alert: Alert, det: Detection, events: seq<TelemetryEvent>, now: Time)
      returns (r: Answer)
      requires key == KeyOf(Triple(alert, det, events))
      modifies this
      ensures var rec := Opened(Triple(alert, det, events), now);
              if ValidIncident(rec.incident) then
                && byId == old(byId)[IncidentId(key) := rec] && byKey == old(byKey)[key := IncidentId(key)]
                && r == Kept(rec.incident, true)
              else byId == old(byId) && byKey == old(byKey) && r == Refused(ErrIncidentBuild)
    {
      var assets := set e | e in events :: e.assetId;
      var summary := SummaryOf({alert.id}, {det.ruleId}, assets);
      var inc := Incident(IncidentId(key), [alert.id], INCIDENT_OPEN, alert.severity, Some(now), Some(now),
                          "Incident: " + alert.title, summary);
      if !ValidIncident(inc) {
        return Refused(ErrIncidentBuild);
      }
      byId := byId[inc.id := Record(inc, {alert.id}, {det.ruleId}, assets)];
      byKey := byKey[key := inc.id];
      return Kept(inc, true);
    }

    method Attach(id: string, alert: Alert, det: Detection, events: seq<TelemetryEvent>, now: Time)
      returns (r: Answer)
      requires id in byId
      modifies this`byId
      ensures if alert.id in old(byId[id].alerts) then byId == old(byId) && r == Kept(byId[id].incident, false)
              else
                && byId == old(byId)[id := Attached(old(byId[id]), Triple(alert, det, events), now)]
                && r == if ValidIncident(byId[id].incident) then Kept(byId[id].incident, false)
                        else Refused(ErrIncidentBuild)
    {
      var rec := byId[id];
      if alert.id in rec.alerts {
        return Kept(rec.incident, false);
      }
      var inc := rec.incident;
      var alerts, rules, assets := rec.alerts + {alert.id}, rec.rules + {det.ruleId}, rec.assets;
      inc := inc.(alertIds := SortStrings(inc.alertIds + [alert.id]));
      for i := 0 to |events|
        invariant assets == rec.assets + set e | e in events[..i] :: e.assetId
      {
        assert events[..i + 1] == events[..i] + [events[i]];
        assets := assets + {events[i].assetId};
      }
      assert events[..|events|] == events;
      if alert.severity > inc.severity {
        inc := inc.(severity := alert.severity);
      }
      var summary := SummaryOf(alerts, rules, assets);
      inc := inc.(updatedAt := Some(now), summary := summary);
      byId := byId[id := Record(inc, alerts, rules, assets)];
      return if ValidIncident(inc) then Kept(inc, false) else Refused(ErrIncidentBuild);
    }

    method Transition(id: string, to: int, now: Time) returns (r: Answer)
      requires Valid()
      modifies this
      ensures Valid()
      ensures Stepped(Current(), r) == TransitionStep(old(Current()), id, to, now)
    {
      TransitionSound(Current(), id, to, now);
      if id !in byId {
        return Refused(ErrIncidentNotFound);
      }
      var rec := byId[id];
      if NextStatus(rec.incident.status) != Some(to) {
        return Refused(ErrIncidentTransition);
      }
      if now == ZERO_TIME {
        return Refused(ErrIncidentBuild);
      }
      var inc := rec.incident.(status := to, updatedAt := Some(now));
      byId := byId[id := rec.(incident := inc)];
      return if ValidIncident(inc) then Kept(inc, false) else Refused(ErrIncidentBuild);
    }

    // The incidents in id order.
    method List() returns (out: seq<Incident>)
      requires Valid()
      ensures MapSeq(out, (inc: Incident) => inc.id) == SortedKeys(byId.Keys)
      ensures forall inc :: inc in out ==> inc.id in byId && inc == byId[inc.id].incident
    {
      var ids := SortKeys(byId.Keys);
      SortedKeysMembers(byId.Keys);
      out := Collect(ids);
    }

    method Collect(ids: seq<string>) returns (out: seq<Incident>)
      requires forall id :: id in ids ==> id in byId && byId[id].incident.id == id
      ensures MapSeq(out, (inc: Incident) => inc.id) == ids
      ensures forall inc :: inc in out ==> inc.id in byId && inc == byId[inc.id].incident
    {
      out := [];
      for i := 0 to |ids|
        invariant |out| == i
        invariant forall j :: 0 <= j < i ==> ids[j] in byId && out[j] == byId[ids[j]].incident && out[j].id == ids[j]
      {
        assert ids[i] in ids;
        out := out + [byId[ids[i]].incident];
      }
    }
  }
}
