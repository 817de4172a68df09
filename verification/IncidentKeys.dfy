/** Which alerts the incident manager puts together, and what one call does to an incident, told in the fields of alerts,
    detections and events. */
module IncidentKeys {
  import opened Base
  import opened Contract
  import opened Incidents

  // ---------------------------------------------------------------------------
  // The key of a triple
  // ---------------------------------------------------------------------------

  // There are events, and each of them carries the correlation id.
  ghost predicate AllCarry(events: seq<TelemetryEvent>, c: string) {
    && c != "" && events != []
    && forall e :: e in events ==>
         "blueveil.correlation_id" in e.attributes && e.attributes["blueveil.correlation_id"] == c
  }

  /** Alerts are keyed by a correlation id exactly when all their events carry it, and otherwise by themselves. */
  lemma KeyMeans(t: Triple)
    ensures forall c :: c != "" ==> (KeyOf(t) == "corr:" + c <==> AllCarry(t.events, c))
    ensures KeyOf(t) == "alert:" + t.alert.id <==> forall c :: !AllCarry(t.events, c)
  {
    assert ("alert:" + t.alert.id)[0] == 'a';
    if KeyOf(t) == "alert:" + t.alert.id {
      forall c ensures KeyOf(t) != "corr:" + c && !AllCarry(t.events, c) {
        assert ("corr:" + c)[0] == 'c';
        if AllCarry(t.events, c) {
          CarriedKey(t, c);
        }
      }
    } else {
      var first := CorrelationOf(t.events[0]);
      SharedCarried(t.events);
      forall c | c != "" ensures KeyOf(t) == "corr:" + c <==> AllCarry(t.events, c) {
        if KeyOf(t) == "corr:" + c {
          assert KeyOf(t)[5..] == c && ("corr:" + first)[5..] == first;
        }
        if AllCarry(t.events, c) {
          CarriedKey(t, c);
        }
      }
    }
  }

  lemma CarriedKey(t: Triple, c: string)
    requires AllCarry(t.events, c)
    ensures KeyOf(t) == "corr:" + c
  {
    assert t.events[0] in t.events;
    forall e | e in t.events ensures CorrelationOf(e) == c {
    }
  }

  lemma SharedCarried(events: seq<TelemetryEvent>)
    requires events != [] && CorrelationOf(events[0]) != ""
    requires forall e :: e in events ==> CorrelationOf(e) == CorrelationOf(events[0])
    ensures AllCarry(events, CorrelationOf(events[0]))
  {
  }

  // ---------------------------------------------------------------------------
  // Which alerts share an incident
  // ---------------------------------------------------------------------------

  // The run has accepted the triple.
  ghost predicate Accepts(calls: seq<Call>, t: Triple) {
    exists n :: 0 <= n < |calls| && AcceptsAt(calls, n, t)
  }

  ghost predicate AcceptsAt(calls: seq<Call>, n: nat, t: Triple)
    requires n < |calls|
  {
    calls[n].Ingest? && calls[n].triple == t && Acceptable(t, calls[n].now)
  }

  lemma {:induction false} MarksAreAccepted(calls: seq<Call>)
    ensures forall t :: Accepts(calls, t) ==> MarkOf(t) in Accepted(calls)
    ensures forall m :: m in Accepted(calls) ==> exists t :: Accepts(calls, t) && MarkOf(t) == m
  {
    if calls != [] {
      var front, c := calls[..|calls| - 1], calls[|calls| - 1];
      MarksAreAccepted(front);
      forall t ensures Accepts(calls, t) <==> Accepts(front, t) || AcceptsAt(calls, |calls| - 1, t) {
        AcceptsMore(calls, t);
      }
      forall m | m in Accepted(calls) && m !in Accepted(front) ensures exists t :: Accepts(calls, t) && MarkOf(t) == m {
        assert AcceptsAt(calls, |calls| - 1, c.triple);
      }
    }
  }

  lemma AcceptsMore(calls: seq<Call>, t: Triple)
    requires calls != []
    ensures Accepts(calls, t) <==> Accepts(calls[..|calls| - 1], t) || AcceptsAt(calls, |calls| - 1, t)
  {
    var front := calls[..|calls| - 1];
    if Accepts(front, t) {
      var k :| 0 <= k < |front| && AcceptsAt(front, k, t);
      assert AcceptsAt(calls, k, t);
    }
    if Accepts(calls, t) {
      var k :| 0 <= k < |calls| && AcceptsAt(calls, k, t);
      assert k < |front| ==> AcceptsAt(front, k, t);
    }
  }

  ghost predicate Together(b: Book, one: string, other: string) {
    exists id :: AttachedTo(b, one, id) && AttachedTo(b, other, id)
  }

  // The two alerts have come with one correlation id on all their events.
  ghost predicate Correlated(calls: seq<Call>, one: string, other: string) {
    exists t, u, c :: Accepts(calls, t) && Accepts(calls, u) && t.alert.id == one && u.alert.id == other
                      && AllCarry(t.events, c) && AllCarry(u.events, c)
  }

  /** In every run two different alerts share an incident exactly when each was accepted with events that all carry one and
      the same correlation id. */
  lemma SharedIncident(calls: seq<Call>, one: string, other: string)
    requires one != other
    ensures Together(Run(calls), one, other) <==> Correlated(calls, one, other)
  {
    if Together(Run(calls), one, other) {
      SharedHasId(calls, one, other);
    }
    if Correlated(calls, one, other) {
      var t, u, c :| Accepts(calls, t) && Accepts(calls, u) && t.alert.id == one && u.alert.id == other
                     && AllCarry(t.events, c) && AllCarry(u.events, c);
      KeyMeans(t);
      KeyMeans(u);
      SameKeyShares(calls, t, u);
    }
  }

  lemma SameKeyShares(calls: seq<Call>, t: Triple, u: Triple)
    requires Accepts(calls, t) && Accepts(calls, u) && KeyOf(t) == KeyOf(u)
    ensures Together(Run(calls), t.alert.id, u.alert.id)
  {
    AcceptedIsKeyed(calls, t);
    AcceptedIsKeyed(calls, u);
    AttachedExactly(calls, t.alert.id, IncidentId(KeyOf(t)));
    AttachedExactly(calls, u.alert.id, IncidentId(KeyOf(t)));
  }

  lemma AcceptedIsKeyed(calls: seq<Call>, t: Triple)
    requires Accepts(calls, t)
    ensures Keyed(Accepted(calls), t.alert.id, KeyOf(t))
  {
    MarksAreAccepted(calls);
    assert MarkOf(t) in Accepted(calls);
  }

  lemma KeyedIsAccepted(calls: seq<Call>, alertId: string, key: string) returns (t: Triple)
    requires Keyed(Accepted(calls), alertId, key)
    ensures Accepts(calls, t) && t.alert.id == alertId && KeyOf(t) == key
  {
    MarksAreAccepted(calls);
    var m :| m in Accepted(calls) && m.alertId == alertId && m.key == key;
    t :| Accepts(calls, t) && MarkOf(t) == m;
  }

  lemma SharedHasId(calls: seq<Call>, one: string, other: string)
    requires one != other && Together(Run(calls), one, other)
    ensures Correlated(calls, one, other)
  {
    var id :| AttachedTo(Run(calls), one, id) && AttachedTo(Run(calls), other, id);
    AttachedExactly(calls, one, id);
    AttachedExactly(calls, other, id);
    var key :| Keyed(Accepted(calls), one, key) && id == IncidentId(key);
    var key' :| Keyed(Accepted(calls), other, key') && id == IncidentId(key');
    IncidentIdInjective(key, key');
    var t := KeyedIsAccepted(calls, one, key);
    var u := KeyedIsAccepted(calls, other, key);
    SameKeyOneId(t, u);
  }

  lemma SameKeyOneId(t: Triple, u: Triple)
    requires KeyOf(t) == KeyOf(u) && t.alert.id != u.alert.id
    ensures exists c :: AllCarry(t.events, c) && AllCarry(u.events, c)
  {
    KeyMeans(t);
    KeyMeans(u);
    assert forall c :: c != "" ==> (AllCarry(t.events, c) <==> AllCarry(u.events, c));
    assert ("alert:" + t.alert.id)[6..] == t.alert.id && ("alert:" + u.alert.id)[6..] == u.alert.id;
  }

  // ---------------------------------------------------------------------------
  // One call
  // ---------------------------------------------------------------------------

  // The alert names the detection, and every event of the detection has been supplied.
  ghost predicate Linked(t: Triple) {
    t.det.id in t.alert.detectionIds && forall id :: id in t.det.eventIds ==> exists e :: e in t.events && e.id == id
  }

  // An incident as a first alert opens it.
  ghost predicate OpenedBy(inc: Incident, t: Triple, now: Time) {
    && inc.alertIds == [t.alert.id] && inc.status == 1 && inc.severity == t.alert.severity
    && inc.title == "Incident: " + t.alert.title && inc.createdAt == inc.updatedAt == Some(now)
  }

  // An incident as one more alert leaves it: the alert is listed, the severity can only rise, and the rest stays.
  ghost predicate ExtendedBy(was: Incident, inc: Incident, t: Triple, now: Time) {
    && multiset(inc.alertIds) == multiset(was.alertIds) + multiset{t.alert.id}
    && inc.severity == (if t.alert.severity > was.severity then t.alert.severity else was.severity)
    && inc.updatedAt == Some(now)
    && inc == was.(alertIds := inc.alertIds, severity := inc.severity, updatedAt := inc.updatedAt, summary := inc.summary)
  }

  /** One ingestion: refused exactly when a message is invalid, the links are broken or the clock is at zero; otherwise a new
      key opens an incident, an attached alert changes nothing, and any other alert extends the incident of its key. */
  lemma IngestOutcome(b: Book, t: Triple, now: Time)
    requires Sound(b)
    ensures var (s, id) := (IngestStep(b, t, now), IncidentId(KeyOf(t)));
            if !ValidAlert(t.alert) || !ValidDetection(t.det) || !Linked(t) || now == ZERO_TIME then
              s == Stepped(b, Refused(ErrIncidentBuild))
            else if id !in b.byId then
              s.answer.Kept? && s.answer.created && s.answer.incident.id == id && OpenedBy(s.answer.incident, t, now)
            else if t.alert.id in b.byId[id].incident.alertIds then
              s == Stepped(b, Kept(b.byId[id].incident, false))
            else
              s.answer.Kept? && !s.answer.created && ExtendedBy(b.byId[id].incident, s.answer.incident, t, now)
  {
    IngestForm(b, t, now);
    var key := KeyOf(t);
    KeyIndexed(b, key);
    if key in b.byKey {
      SortedKeysOf(b.byId[IncidentId(key)].alerts);
      StrLeIsOrder();
      SortBySorts(b.byId[IncidentId(key)].incident.alertIds + [t.alert.id], StrLe);
    }
  }

  lemma KeyIndexed(b: Book, key: string)
    requires Sound(b)
    ensures key in b.byKey <==> IncidentId(key) in b.byId
    ensures key in b.byKey ==> b.byKey[key] == IncidentId(key) && SoundRecord(IncidentId(key), b.byId[IncidentId(key)])
  {
    if IncidentId(key) in b.byId {
      var k :| k in b.byKey && b.byKey[k] == IncidentId(key);
      IncidentIdInjective(k, key);
    }
  }

  /** One transition: it succeeds exactly for a stored incident, to the very next of the five states, with a running clock,
      and changes status and time of change only. */
  lemma TransitionOutcome(b: Book, id: string, to: int, now: Time)
    requires Sound(b)
    ensures var s := TransitionStep(b, id, to, now);
            if id !in b.byId then s == Stepped(b, Refused(ErrIncidentNotFound))
            else
              var inc := b.byId[id].incident;
              if to != inc.status + 1 || to > 5 then s == Stepped(b, Refused(ErrIncidentTransition))
              else if now == ZERO_TIME then s == Stepped(b, Refused(ErrIncidentBuild))
              else
                && s.answer == Kept(inc.(status := to, updatedAt := Some(now)), false)
                && s.book == b.(byId := b.byId[id := b.byId[id].(incident := s.answer.incident)])
  {
    TransitionForm(b, id, to, now);
    if id in b.byId {
      assert SoundRecord(id, b.byId[id]);
      NextMeans(b.byId[id].incident.status, to);
    }
  }

  lemma NextMeans(status: int, to: int)
    ensures NextStatus(status) == Some(to) <==> 1 <= status <= 4 && to == status + 1
  {
  }
}
