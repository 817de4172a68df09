/** The keyed burst rules: one sliding window per source endpoint or per asset. */
module BurstRules {
  import opened Base
  import opened Contract
  import opened Rule
  import opened Window

  type Windows = map<string, WindowState>

  function WindowOf(ws: Windows, key: string): WindowState {
    if key in ws then ws[key] else IDLE
  }

  function ObserveKeyed(ws: Windows, key: string, e: Entry, window: int, threshold: int): (Windows, bool) {
    var (w, reached) := Observe(WindowOf(ws, key), e, window, threshold);
    (ws[key := w], reached)
  }

  function EntryOf(e: TelemetryEvent): Entry {
    Entry(EventTime(e), e.id, e.severity)
  }

  // What a burst rule reports when its window fires.
  function BurstMatch(title: string, attrs: map<string, string>, entries: seq<Entry>): Outcome {
    Match(Peak(entries), 0.0, title, title, SortStrings(Ids(entries)), attrs)
  }

  function BurstAttrs(threshold: int, window: int, count: nat): map<string, string> {
    map["threshold" := Decimal(threshold), "window" := Decimal(window), "count" := Decimal(count)]
  }

  const CONNECTION_TITLE: string := "Connection burst"
  const BLOCK_TITLE: string := "Blocked burst"

  function ConnectionReport(key: string, entries: seq<Entry>, threshold: int, window: int): Outcome {
    BurstMatch(CONNECTION_TITLE, BurstAttrs(threshold, window, |entries|)["src" := key], entries)
  }

  // The two rules: connections by source address, which source reads off the event, and blocks by asset.
  datatype Burst = Connections(source: TelemetryEvent -> Option<string>) | Blocks

  function TypeOf(b: Burst): string {
    if b.Connections? then "net.connection" else "waf.request_blocked"
  }

  function KeyUnder(b: Burst, e: TelemetryEvent): Option<string> {
    if b.Connections? then b.source(e) else Some(e.assetId)
  }

  function ReportOf(b: Burst, key: string, entries: seq<Entry>, threshold: int, window: int): Outcome {
    if b.Connections? then ConnectionReport(key, entries, threshold, window) else BlockReport(entries, threshold, window)
  }

  // One evaluation: the windows after it, and the answer.
  function EvaluateStep(b: Burst, ws: Windows, e: TelemetryEvent, now: Time, window: int, threshold: int)
    : (Windows, Evaluation)
  {
    if e.eventType != TypeOf(b) then (ws, Evaluated(NoMatch))
    else if now == ZERO_TIME || KeyUnder(b, e).None? || EventTime(e) == ZERO_TIME then (ws, RuleError)
    else
      var key := KeyUnder(b, e).value;
      var (next, reached) := ObserveKeyed(ws, key, EntryOf(e), window, threshold);
      (next, Evaluated(if reached then ReportOf(b, key, next[key].entries, threshold, window) else NoMatch))
  }

  /** NetConnectionBurstRule: windows keyed by source address, read off the event by srcOf (None: not parsable). */
  class NetConnectionBurstRule {
    const threshold: int
    const window: int
    var windows: map<string, NetWindow>

    ghost predicate Valid()
      reads this, windows.Values
    {
      && ValidParams(window, threshold)
      && (forall k :: k in windows ==> windows[k].Valid())
      && (forall j, k :: j in windows && k in windows && j != k ==>
            windows[j] != windows[k] && windows[j].buffer != windows[k].buffer)
    }

    ghost function Footprint(): set<object>
      reads this, windows.Values
    {
      (set k | k in windows :: windows[k] as object) + (set k | k in windows :: windows[k].buffer as object)
    }

    ghost function States(): Windows
      reads this, windows.Values, Footprint()
      requires Valid()
    {
      map k | k in windows :: windows[k].State()
    }

    constructor (threshold: int, window: int)
      requires ValidParams(window, threshold)
      ensures Valid() && States() == map[] && this.threshold == threshold && this.window == window
      ensures windows == map[]
    {
      this.threshold, this.window, windows := threshold, window, map[];
    }

    // Makes sure that a key has a window, and leaves all other windows alone.
    method Create(key: string)
      requires Valid()
      modifies this
      ensures Valid() && key in windows && windows == old(windows)[key := windows[key]]
      ensures if key in old(windows) then windows[key] == old(windows[key])
              else fresh(windows[key]) && fresh(windows[key].buffer)
      ensures States() == old(States())[key := WindowOf(old(States()), key)]
    {
      if key !in windows {
        var created := new NetWindow();
        windows := windows[key := created];
      } else {
        assert windows[key := windows[key]] == windows;
      }
    }

    // The window of a key, created on first use.
    method Open(key: string) returns (w: NetWindow)
      requires Valid()
      modifies this
      ensures Valid() && key in windows && windows[key] == w
      ensures States() == old(States())[key := WindowOf(old(States()), key)]
      ensures fresh(Footprint() - old(Footprint()))
    {
      Create(key);
      w := windows[key];
    }

    method Slide(key: string, e: TelemetryEvent) returns (w: NetWindow, reached: bool)
      requires Valid()
      modifies this, Footprint()
      ensures Valid() && fresh(Footprint() - old(Footprint()))
      ensures key in windows && windows[key] == w
      ensures (States(), reached) == ObserveKeyed(old(States()), key, EntryOf(e), window, threshold)
    {
      w := Open(key);
      reached := Advance(key, e);
      MapOverwrites(old(States()), key, WindowOf(old(States()), key), States()[key]);
    }

    // One event into an open window.
    method Advance(key: string, e: TelemetryEvent) returns (reached: bool)
      requires Valid() && key in windows
      modifies windows[key], windows[key].buffer
      ensures Valid() && fresh(Footprint() - old(Footprint()))
      ensures windows[key].State() == Observe(old(windows[key].State()), EntryOf(e), window, threshold).0
      ensures reached == Observe(old(windows[key].State()), EntryOf(e), window, threshold).1
      ensures States() == old(States())[key := windows[key].State()]
    {
      ghost var before := States();
      reached := windows[key].ObserveEvent(EventTime(e), e.id, e.severity, window, threshold);
      OthersKept(before, key);
    }

    // States that differ at one key only.
    lemma OthersKept(before: Windows, key: string)
      requires Valid() && key in windows && before.Keys == windows.Keys
      requires forall k :: k in windows && k != key ==> windows[k].State() == before[k]
      ensures States() == before[key := windows[key].State()]
    {
    }

    method Report(key: string) returns (o: Outcome)
      requires Valid() && key in windows
      ensures o == ConnectionReport(key, States()[key].entries, threshold, window)
    {
      var w := windows[key];
      var peak := w.PeakSeverity();
      var ids := w.SortedIds();
      return Match(peak, 0.0, CONNECTION_TITLE, CONNECTION_TITLE, ids,
                   BurstAttrs(threshold, window, w.length)["src" := key]);
    }

    method Evaluate(e: TelemetryEvent, now: Time, srcOf: TelemetryEvent -> Option<string>)
      returns (r: Evaluation)
      requires Valid()
      modifies this, Footprint()
      ensures Valid() && fresh(Footprint() - old(Footprint()))
      ensures (States(), r) == EvaluateStep(Connections(srcOf), old(States()), e, now, window, threshold)
    {
      if e.eventType != "net.connection" {
        return Evaluated(NoMatch);
      }
      if now == ZERO_TIME {
        return RuleError;
      }
      var src := srcOf(e);
      if src.None? {
        return RuleError;
      }
      if EventTime(e) == ZERO_TIME {
        return RuleError;
      }
      r := Count(src.value, e);
    }

    method Count(key: string, e: TelemetryEvent) returns (r: Evaluation)
      requires Valid()
      modifies this, Footprint()
      ensures Valid() && fresh(Footprint() - old(Footprint()))
      ensures var (ws, reached) := ObserveKeyed(old(States()), key, EntryOf(e), window, threshold);
              && States() == ws
              && r == Evaluated(
                   if reached then ConnectionReport(key, ws[key].entries, threshold, window) else NoMatch)
    {
      var w, reached := Slide(key, e);
      if !reached {
        return Evaluated(NoMatch);
      }
      var outcome := Report(key);
      return Evaluated(outcome);
    }
  }

  function BlockReport(entries: seq<Entry>, threshold: int, window: int): Outcome {
    BurstMatch(BLOCK_TITLE, BurstAttrs(threshold, window, |entries|), entries)
  }

  /** BlockBurstRule: the same contract over per-asset windows written out inside the rule. */
  class BlockBurstRule {
    const threshold: int
    const window: int
    var windows: Windows

    constructor (threshold: int, window: int)
      requires ValidParams(window, threshold)
      ensures windows == map[] && this.threshold == threshold && this.window == window
    {
      this.threshold, this.window, windows := threshold, window, map[];
    }

    method Evaluate(e: TelemetryEvent, now: Time) returns (r: Evaluation)
      modifies this
      ensures (windows, r) == EvaluateStep(Blocks, old(windows), e, now, window, threshold)
    {
      if e.eventType != "waf.request_blocked" {
        return Evaluated(NoMatch);
      }
      if now == ZERO_TIME {
        return RuleError;
      }
      if EventTime(e) == ZERO_TIME {
        return RuleError;
      }
      r := Count(e.assetId, e);
    }

    method Count(key: string, e: TelemetryEvent) returns (r: Evaluation)
      modifies this
      ensures var (ws, reached) := ObserveKeyed(old(windows), key, EntryOf(e), window, threshold);
              && windows == ws
              && r == Evaluated(if reached then BlockReport(ws[key].entries, threshold, window) else NoMatch)
    {
      var w := if key in windows then windows[key] else IDLE;
      var entries := Filter(w.entries, EventTime(e) - window);
      entries := entries + [Entry(EventTime(e), e.id, e.severity)];
      if |entries| < threshold {
        windows := windows[key := WindowState(entries, false)];
        return Evaluated(NoMatch);
      }
      windows := windows[key := WindowState(entries, true)];
      if w.fired {
        return Evaluated(NoMatch);
      }
      var outcome := Report(entries);
      return Evaluated(outcome);
    }

    method Report(entries: seq<Entry>) returns (o: Outcome)
      ensures o == BlockReport(entries, threshold, window)
    {
      var ids, peak := [], INFO;
      for i := 0 to |entries|
        invariant ids == Ids(entries[..i]) && peak == Peak(entries[..i])
      {
        assert entries[..i + 1][..i] == entries[..i];
        ids := ids + [entries[i].id];
        if entries[i].severity > peak {
          peak := entries[i].severity;
        }
      }
      assert entries[..|entries|] == entries;
      return Match(peak, 0.0, BLOCK_TITLE, BLOCK_TITLE, SortStrings(ids), BurstAttrs(threshold, window, |entries|));
    }
  }

  method Filter(entries: seq<Entry>, cutoff: Time) returns (kept: seq<Entry>)
    ensures kept == Kept(entries, cutoff)
  {
    kept := [];
    for i := 0 to |entries|
      invariant kept == Kept(entries[..i], cutoff)
    {
      assert entries[..i + 1][..i] == entries[..i];
      if !(entries[i].at < cutoff) {
        kept := kept + [entries[i]];
      }
    }
    assert entries[..|entries|] == entries;
  }

  // ---------------------------------------------------------------------------
  // Keys do not interfere
  // ---------------------------------------------------------------------------

  datatype Keyed = Keyed(key: string, entry: Entry)

  function RunKeyed(stream: seq<Keyed>, window: int, threshold: int): Windows {
    if stream == [] then map[]
    else
      var last := stream[|stream| - 1];
      ObserveKeyed(RunKeyed(stream[..|stream| - 1], window, threshold), last.key, last.entry, window, threshold).0
  }

  predicate KeyedFiresLast(stream: seq<Keyed>, window: int, threshold: int)
    requires stream != []
  {
    var last := stream[|stream| - 1];
    ObserveKeyed(RunKeyed(stream[..|stream| - 1], window, threshold), last.key, last.entry, window, threshold).1
  }

  function OfKey(stream: seq<Keyed>, key: string): seq<Entry> {
    if stream == [] then []
    else
      var last := stream[|stream| - 1];
      OfKey(stream[..|stream| - 1], key) + if last.key == key then [last.entry] else []
  }

  // On any interleaving, the window of a key is the window run on that key's own events.
  lemma {:induction false} KeyIndependence(stream: seq<Keyed>, key: string, window: int, threshold: int)
    ensures WindowOf(RunKeyed(stream, window, threshold), key) == RunWindow(OfKey(stream, key), window, threshold)
  {
    if stream != [] {
      var before, last := stream[..|stream| - 1], stream[|stream| - 1];
      KeyIndependence(before, key, window, threshold);
      if last.key == key {
        var es := OfKey(stream, key);
        assert es[..|es| - 1] == OfKey(before, key);
      } else {
        assert OfKey(stream, key) == OfKey(before, key);
      }
    }
  }

  // A keyed rule fires on an event exactly when the key's own stream, ended by that event, fires.
  lemma KeyedFires(stream: seq<Keyed>, window: int, threshold: int)
    requires stream != []
    ensures KeyedFiresLast(stream, window, threshold)
       <==> OfKey(stream, stream[|stream| - 1].key) != []
            && FiresLast(OfKey(stream, stream[|stream| - 1].key), window, threshold)
  {
    var before, last := stream[..|stream| - 1], stream[|stream| - 1];
    KeyIndependence(before, last.key, window, threshold);
    var es := OfKey(stream, last.key);
    assert es[..|es| - 1] == OfKey(before, last.key);
  }
}
