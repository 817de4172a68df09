/** The sliding event-time window shared by the burst rules: in-place compaction, fire once, re-arm. */
module Window {
  import opened Base
  import opened Contract

  datatype Entry = Entry(at: Time, id: string, severity: Severity)

  datatype WindowState = WindowState(entries: seq<Entry>, fired: bool)

  const IDLE: WindowState := WindowState([], false)

  function Kept(entries: seq<Entry>, cutoff: Time): seq<Entry> {
    if entries == [] then []
    else
      var rest, last := Kept(entries[..|entries| - 1], cutoff), entries[|entries| - 1];
      if last.at >= cutoff then rest + [last] else rest
  }

  function Observe(w: WindowState, e: Entry, window: int, threshold: int): (WindowState, bool) {
    var entries := Kept(w.entries, e.at - window) + [e];
    (WindowState(entries, |entries| >= threshold), |entries| >= threshold && !w.fired)
  }

  function Peak(entries: seq<Entry>): Severity {
    if entries == [] then INFO else Max(Peak(entries[..|entries| - 1]), entries[|entries| - 1].severity)
  }

  function Ids(entries: seq<Entry>): seq<string> {
    seq(|entries|, i requires 0 <= i < |entries| => entries[i].id)
  }

  // Checked at construction of every burst rule.
  predicate ValidParams(window: int, threshold: int) {
    threshold > 0 && window > 0
  }

  /** netWindow: a slice with spare capacity whose prefix holds the live entries. */
  class NetWindow {
    var buffer: array<Entry>
    var length: nat
    var fired: bool

    ghost predicate Valid()
      reads this
    {
      length <= buffer.Length
    }

    ghost function State(): WindowState
      reads this, buffer
      requires Valid()
    {
      WindowState(buffer[..length], fired)
    }

    constructor ()
      ensures Valid() && State() == IDLE && fresh(buffer)
    {
      buffer := new Entry[0];
      length, fired := 0, false;
    }

    // Filters the live entries in place, over the same backing array.
    method Compact(cutoff: Time)
      requires Valid()
      modifies this`length, buffer
      ensures Valid() && buffer[..length] == Kept(old(buffer[..length]), cutoff)
    {
      ghost var was := buffer[..length];
      var n, kept := length, 0;
      for i := 0 to n
        invariant length == n == |was| <= buffer.Length && kept <= i
        invariant buffer[..kept] == Kept(was[..i], cutoff)
        invariant buffer[i..n] == was[i..]
      {
        assert was[..i + 1][..i] == was[..i];
        assert buffer[i] == buffer[i..n][0] == was[i];
        if buffer[i].at >= cutoff {
          buffer[kept] := buffer[i];
          kept := kept + 1;
        }
        assert buffer[i + 1..n] == was[i..][1..];
      }
      assert was[..n] == was;
      length := kept;
    }

    method Append(e: Entry)
      requires Valid()
      modifies this, buffer
      ensures Valid() && buffer[..length] == old(buffer[..length]) + [e] && fired == old(fired)
      ensures buffer == old(buffer) || fresh(buffer)
    {
      if length == buffer.Length {
        var grown := new Entry[2 * length + 1](_ => e);
        var n := length;
        for i := 0 to n
          invariant length == n == buffer.Length && buffer == old(buffer) && buffer[..] == old(buffer[..])
          invariant fired == old(fired)
          invariant grown[..i] == buffer[..i]
        {
          grown[i] := buffer[i];
        }
        buffer := grown;
      }
      buffer[length] := e;
      length := length + 1;
    }

    // Appends one event and reports whether the window just reached threshold.
    method ObserveEvent(at: Time, id: string, severity: Severity, window: int, threshold: int) returns (reached: bool)
      requires Valid()
      modifies this, buffer
      ensures Valid() && (buffer == old(buffer) || fresh(buffer))
      ensures (State(), reached) == Observe(old(State()), Entry(at, id, severity), window, threshold)
    {
      Compact(at - window);
      Append(Entry(at, id, severity));
      if length < threshold {
        fired := false;
        return false;
      }
      if fired {
        return false;
      }
      fired := true;
      return true;
    }

    method PeakSeverity() returns (peak: Severity)
      requires Valid()
      ensures peak == Peak(State().entries)
    {
      peak := INFO;
      for i := 0 to length
        invariant peak == Peak(buffer[..i])
      {
        assert buffer[..i + 1][..i] == buffer[..i];
        if buffer[i].severity > peak {
          peak := buffer[i].severity;
        }
      }
    }

    method SortedIds() returns (ids: seq<string>)
      requires Valid()
      ensures ids == SortStrings(Ids(State().entries))
    {
      ids := [];
      for i := 0 to length
        invariant ids == Ids(buffer[..i])
      {
        ids := ids + [buffer[i].id];
      }
      ids := SortStrings(ids);
    }
  }

  // ---------------------------------------------------------------------------
  // Histories
  // ---------------------------------------------------------------------------

  function RunWindow(es: seq<Entry>, window: int, threshold: int): WindowState {
    if es == [] then IDLE
    else Observe(RunWindow(es[..|es| - 1], window, threshold), es[|es| - 1], window, threshold).0
  }

  // Whether the last event of a history fires.
  predicate FiresLast(es: seq<Entry>, window: int, threshold: int)
    requires es != []
  {
    Observe(RunWindow(es[..|es| - 1], window, threshold), es[|es| - 1], window, threshold).1
  }

  // Event j is not older than the window seen from any event from j on.
  ghost predicate Survives(es: seq<Entry>, j: nat, window: int)
    requires j < |es|
  {
    forall i :: j <= i < |es| ==> es[j].at >= es[i].at - window
  }

  // The survivors among the first n events of a history, in order.
  ghost function Survivors(es: seq<Entry>, n: nat, window: int): seq<Entry>
    requires n <= |es|
  {
    if n == 0 then []
    else Survivors(es, n - 1, window) + if Survives(es, n - 1, window) then [es[n - 1]] else []
  }

  lemma {:induction false} KeptAppend(xs: seq<Entry>, e: Entry, cutoff: Time)
    ensures Kept(xs + [e], cutoff) == Kept(xs, cutoff) + if e.at >= cutoff then [e] else []
  {
    assert (xs + [e])[..|xs|] == xs;
  }

  lemma SurvivesStep(es: seq<Entry>, e: Entry, j: nat, window: int)
    requires j < |es|
    ensures Survives(es + [e], j, window) <==> Survives(es, j, window) && es[j].at >= e.at - window
  {
    var all := es + [e];
    assert all[|es|] == e && all[j] == es[j];
    if Survives(all, j, window) {
      forall i | j <= i < |es| ensures es[j].at >= es[i].at - window {
        assert all[i] == es[i];
      }
    }
    if Survives(es, j, window) && es[j].at >= e.at - window {
      forall i | j <= i < |all| ensures all[j].at >= all[i].at - window {
        assert i < |es| ==> all[i] == es[i];
      }
    }
  }

  lemma {:induction false} SurvivorsStep(es: seq<Entry>, e: Entry, n: nat, window: int)
    requires n <= |es|
    ensures Survivors(es + [e], n, window) == Kept(Survivors(es, n, window), e.at - window)
  {
    if n > 0 {
      SurvivorsStep(es, e, n - 1, window);
      SurvivesStep(es, e, n - 1, window);
      assert (es + [e])[n - 1] == es[n - 1];
      var earlier := Survivors(es, n - 1, window);
      KeptAppend(earlier, es[n - 1], e.at - window);
      assert earlier + [] == earlier && Kept(earlier, e.at - window) + [] == Kept(earlier, e.at - window);
    }
  }

  // After any stream, in order or not, the window holds exactly the events that survive every later cutoff, and
  // fired holds exactly when their number reaches the threshold.
  lemma {:induction false} WindowHistory(es: seq<Entry>, window: int, threshold: int)
    requires ValidParams(window, threshold)
    ensures RunWindow(es, window, threshold).entries == Survivors(es, |es|, window)
    ensures RunWindow(es, window, threshold).fired <==> |Survivors(es, |es|, window)| >= threshold
  {
    if es != [] {
      var before, last := es[..|es| - 1], es[|es| - 1];
      WindowHistory(before, window, threshold);
      assert es == before + [last];
      SurvivorsStep(before, last, |before|, window);
      assert Survives(es, |es| - 1, window);
    }
  }

  ghost predicate InTimeOrder(es: seq<Entry>) {
    forall i, j :: 0 <= i <= j < |es| ==> es[i].at <= es[j].at
  }

  // On a time-ordered stream the window holds exactly the past events not older than the window.
  lemma {:induction false} OrderedWindow(es: seq<Entry>, n: nat, window: int)
    requires es != [] && n <= |es| && InTimeOrder(es)
    ensures Survivors(es, n, window) == Kept(es[..n], es[|es| - 1].at - window)
  {
    if n > 0 {
      OrderedWindow(es, n - 1, window);
      assert es[..n][..n - 1] == es[..n - 1];
      assert Survives(es, n - 1, window) <==> es[n - 1].at >= es[|es| - 1].at - window;
    }
  }

  lemma {:induction false} KeptShrinks(xs: seq<Entry>, cutoff: Time)
    ensures |Kept(xs, cutoff)| <= |xs|
  {
    if xs != [] {
      KeptShrinks(xs[..|xs| - 1], cutoff);
    }
  }

  // Firing is exactly the rising edge of the count, and a window that fires holds exactly threshold entries.
  lemma FiresOnRisingEdge(es: seq<Entry>, window: int, threshold: int)
    requires es != [] && ValidParams(window, threshold)
    ensures var before, after := |Survivors(es[..|es| - 1], |es| - 1, window)|, |Survivors(es, |es|, window)|;
            && (FiresLast(es, window, threshold) <==> before < threshold <= after)
            && (FiresLast(es, window, threshold) ==> after == threshold)
  {
    var past, last := es[..|es| - 1], es[|es| - 1];
    WindowHistory(past, window, threshold);
    WindowHistory(es, window, threshold);
    KeptShrinks(RunWindow(past, window, threshold).entries, last.at - window);
  }

  lemma {:induction false} PeakIsMaximum(entries: seq<Entry>)
    ensures forall e :: e in entries ==> e.severity <= Peak(entries)
    ensures Peak(entries) == INFO || exists e :: e in entries && e.severity == Peak(entries)
  {
    if entries != [] {
      PeakIsMaximum(entries[..|entries| - 1]);
      assert entries == entries[..|entries| - 1] + [entries[|entries| - 1]];
    }
  }
}
