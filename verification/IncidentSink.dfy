/** The pipeline stage that runs the chain over its mutable components. */
module IncidentSinks {
  import opened Base
  import opened Contract
  import opened Chain
  import Evidences
  import D = DetectEngine
  import I = Incidents

  class InMemorySink {
    var events: seq<TelemetryEvent>
    var failing: bool

    constructor ()
      ensures events == [] && !failing
    {
      events, failing := [], false;
    }

    method SetError(failing: bool)
      modifies this`failing
      ensures this.failing == failing
    {
      this.failing := failing;
    }

    method Emit(e: TelemetryEvent) returns (ok: bool)
      modifies this`events
      ensures ok == !failing
      ensures events == if ok then old(events) + [e] else old(events)
    {
      if failing {
        return false;
      }
      events := events + [e];
      return true;
    }
  }

  lemma {:induction false} GatherFails(archive: seq<TelemetryEvent>, ids: seq<string>, n: nat)
    requires n <= |ids| && Gather(archive, ids[..n]).None?
    ensures Gather(archive, ids).None?
  {
    if n < |ids| {
      assert ids[..|ids| - 1][..n] == ids[..n];
      GatherFails(archive, ids[..|ids| - 1], n);
    } else {
      assert ids[..n] == ids;
    }
  }

  // A map that answers lookups like a sequence of events.
  ghost predicate Mirrors(byId: map<string, TelemetryEvent>, events: seq<TelemetryEvent>) {
    && (forall id :: id in byId <==> Evidences.FindEvent(events, id).Some?)
    && (forall id :: id in byId ==> Evidences.FindEvent(events, id) == Some(byId[id]))
  }

  class IncidentSink {
    const engine: D.Engine
    const incidents: I.Manager
    const evidence: Evidences.Store
    const detections: D.Store
    const sink: InMemorySink
    const render: Evidences.Rendering

    ghost predicate Valid()
      reads this, engine, engine.registry, incidents, detections
    {
      && engine.Valid() && incidents.Valid() && detections.Valid()
    }

    // The components' state; the sink is both the archive and the downstream.
    ghost function Current(): Chain
      reads this, engine, engine.registry, incidents, evidence, detections, sink
      requires detections.Valid()
    {
      Chain(engine.Current(), incidents.Current(), evidence.items, detections.Pairs(), sink.events, sink.failing)
    }

    constructor (render: Evidences.Rendering)
      ensures Valid() && Current() == START && this.render == render
    {
      this.render := render;
      engine := new D.Engine();
      incidents := new I.Manager();
      evidence := new Evidences.Store();
      detections := new D.Store();
      sink := new InMemorySink();
    }

    method Emit(input: Input) returns (error: Option<Error>)
      requires Valid()
      modifies engine, incidents, evidence, detections, sink
      ensures Valid()
      ensures Emission(Current(), error) == EmitStep(old(Current()), input, render)
    {
      var r := engine.Process(input.event, input.now, input.answers);
      if r.Aborted? {
        return Some(ErrDetection);
      }
      error := Forward(r.detections, r.alerts, input.event, input.clock);
    }

    method Forward(dets: seq<Detection>, alerts: seq<Alert>, e: TelemetryEvent, clock: nat -> Time)
      returns (error: Option<Error>)
      requires incidents.Valid() && detections.Valid()
      modifies incidents, evidence, detections, sink
      ensures incidents.Valid() && detections.Valid()
      ensures Emission(Current(), error) == Deliver(old(Current()), dets, alerts, e, clock, render)
    {
      if |dets| != |alerts| {
        return Some(ErrDetection);
      }
      StorePairs(dets, alerts);
      var snapshot := Snapshot(sink.events, e);
      if snapshot.None? {
        return Some(ErrIncident);
      }
      error := File(dets, alerts, snapshot.value, sink.events + [e], clock);
      if error.Some? {
        return;
      }
      var ok := sink.Emit(e);
      if !ok {
        return Some(ErrSink);
      }
    }

    method StorePairs(dets: seq<Detection>, alerts: seq<Alert>)
      requires detections.Valid() && |dets| == |alerts|
      modifies detections
      ensures detections.Valid() && detections.Pairs() == old(detections.Pairs()) + D.Zip(dets, alerts)
    {
      ghost var pairs := D.Zip(dets, alerts);
      for i := 0 to |dets|
        invariant detections.Valid() && detections.Pairs() == old(detections.Pairs()) + pairs[..i]
      {
        assert pairs[..i + 1] == pairs[..i] + [pairs[i]];
        detections.Add(dets[i], alerts[i]);
      }
      assert pairs[..|dets|] == pairs;
    }

    // None is a duplicate event id.
    method Snapshot(events: seq<TelemetryEvent>, e: TelemetryEvent) returns (r: Option<map<string, TelemetryEvent>>)
      ensures r.Some? == UniqueIds(events + [e])
      ensures r.Some? ==> Mirrors(r.value, events + [e])
    {
      var byId: map<string, TelemetryEvent> := map[];
      UniqueGrows(events, e);
      for i := 0 to |events|
        invariant UniqueIds(events[..i]) && Mirrors(byId, events[..i])
      {
        UniqueGrows(events[..i], events[i]);
        assert events[..i + 1] == events[..i] + [events[i]];
        assert events[..i + 1][..i] == events[..i];
        if events[i].id in byId {
          UniqueFront(events, i + 1);
          return None;
        }
        byId := byId[events[i].id := events[i]];
      }
      assert events[..|events|] == events && (events + [e])[..|events|] == events;
      if e.id in byId {
        return None;
      }
      return Some(byId[e.id := e]);
    }

    method Contributing(byId: map<string, TelemetryEvent>, ghost events: seq<TelemetryEvent>, ids: seq<string>)
      returns (r: Option<seq<TelemetryEvent>>)
      requires Mirrors(byId, events)
      ensures r == Gather(events, ids)
    {
      var out := [];
      for i := 0 to |ids|
        invariant Gather(events, ids[..i]) == Some(out)
      {
        assert ids[..i + 1][..i] == ids[..i];
        if ids[i] !in byId {
          GatherFails(events, ids, i + 1);
          return None;
        }
        out := out + [byId[ids[i]]];
      }
      assert ids[..|ids|] == ids;
      return Some(out);
    }

    ghost function FilingNow(error: Option<Error>): Filing
      reads this, incidents, evidence
    {
      Filing(incidents.Current(), evidence.items, error)
    }

    method File(dets: seq<Detection>, alerts: seq<Alert>, byId: map<string, TelemetryEvent>,
                ghost snapshot: seq<TelemetryEvent>, clock: nat -> Time)
      returns (error: Option<Error>)
      requires incidents.Valid() && |dets| == |alerts| && Mirrors(byId, snapshot)
      modifies incidents, evidence
      ensures incidents.Valid()
      ensures FilingNow(error) == FileAll(old(FilingNow(None)), D.Zip(dets, alerts), snapshot, clock, render)
    {
      ghost var pairs := D.Zip(dets, alerts);
      for i := 0 to |dets|
        invariant incidents.Valid()
        invariant FilingNow(None) == FileAll(old(FilingNow(None)), pairs[..i], snapshot, clock, render)
      {
        assert pairs[..i + 1][..i] == pairs[..i];
        error := FilePair(dets[i], alerts[i], byId, snapshot, clock(i));
        if error.Some? {
          ErrorStays(old(FilingNow(None)), pairs, i + 1, snapshot, clock, render);
          return;
        }
      }
      assert pairs[..|dets|] == pairs;
      return None;
    }

    method FilePair(det: Detection, alert: Alert, byId: map<string, TelemetryEvent>,
                    ghost snapshot: seq<TelemetryEvent>, now: Time)
      returns (error: Option<Error>)
      requires incidents.Valid() && Mirrors(byId, snapshot)
      modifies incidents, evidence
      ensures incidents.Valid()
      ensures FilingNow(error) == FileOne(old(FilingNow(None)), D.Pair(det, alert), snapshot, now, render)
    {
      var events := Contributing(byId, snapshot, det.eventIds);
      if events.None? {
        return Some(ErrIncident);
      }
      var answer := incidents.Ingest(alert, det, events.value, now);
      if answer.Refused? {
        return Some(ErrIncident);
      }
      var inc := answer.incident;
      var items := Evidences.BuildForAlert(inc.id, alert, det, events.value, AsTime(inc.updatedAt), render);
      if items.None? {
        return Some(ErrEvidence);
      }
      AddAll(items.value);
      return None;
    }

    method AddAll(items: seq<Evidences.Evidence>)
      modifies evidence
      ensures evidence.items == Evidences.KeepAll(old(evidence.items), items)
    {
      for i := 0 to |items|
        invariant evidence.items == Evidences.KeepAll(old(evidence.items), items[..i])
      {
        assert items[..i + 1][..i] == items[..i];
        var added := evidence.Add(items[i]);
      }
      assert items[..|items|] == items;
    }
  }
}
