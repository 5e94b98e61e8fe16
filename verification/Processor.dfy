// Transition detection over native samples (internal/push/processor.go:45-64, 105-170).
module Processor {
  import opened Wrappers

  datatype Kind = Ev | Pump | Valve | Soc

  datatype Key = Key(kind: Kind, id: string)

  // A reading is absent, not a finite number, or a number.
  datatype Reading = Absent | NotFinite | Number(v: real)

  datatype Sample = Sample(key: Key, value: Reading)

  datatype Observation = Observation(samples: seq<Sample>, retained: bool, complete: bool, now: int)

  datatype Baseline = Baseline(value: real, at: int)

  datatype Alert = EvStarted | EvStopped | PumpOn | PumpOff | ValveOpened | ValveClosed | BatteryLow

  datatype Event = Event(alert: Alert, key: Key, at: int)

  const WINDOW: int := 30000

  // ---- the map keys of the source ----

  function KindText(kind: Kind): string {
    match kind
    case Ev => "ev"
    case Pump => "pump"
    case Valve => "valve"
    case Soc => "soc"
  }

  function KeyText(key: Key): string { KindText(key.kind) + ":" + key.id }

  // No kind contains a colon, so the text determines the pair.
  lemma KeyTextInjective(a: Key, b: Key)
    requires KeyText(a) == KeyText(b)
    ensures a == b
  {
    var i, j := |KindText(a.kind)|, |KindText(b.kind)|;
    assert KeyText(a)[i] == ':' && KeyText(b)[j] == ':';
    assert KeyText(a)[0] == KindText(a.kind)[0] && KeyText(b)[0] == KindText(b.kind)[0];
    assert i == j && a.kind == b.kind;
    assert a.id == KeyText(a)[i + 1..] && b.id == KeyText(b)[j + 1..];
  }

  // ---- transition ----

  predicate Binary(v: real) { v == 0.0 || v == 1.0 }

  function Transition(kind: Kind, before: real, after: real): Option<Alert> {
    match kind
    case Ev => if (before > 10.0) == (after > 10.0) then None else if after > 10.0 then Some(EvStarted) else Some(EvStopped)
    case Pump => if !Binary(before) || !Binary(after) || before == after then None else if after == 1.0 then Some(PumpOn) else Some(PumpOff)
    case Valve => if !Binary(before) || !Binary(after) || before == after then None else if after == 1.0 then Some(ValveOpened) else Some(ValveClosed)
    case Soc => if 20.0 < before <= 100.0 && 0.0 <= after <= 20.0 then Some(BatteryLow) else None
  }

  // ---- the history of one epoch ----

  // A sample, valid when finite and not retained; or the end of a complete
  // observation, which keeps only the keys it saw.
  datatype Entry = Sampled(key: Key, value: Option<real>, at: int) | Swept(seen: set<Key>)

  function Usable(s: Sample, retained: bool): Option<real> {
    if s.value.Number? && !retained then Some(s.value.v) else None
  }

  // The last sample of a kind, when it still stands as a baseline.
  function Standing(log: seq<Entry>, kind: Kind): Option<(Key, Baseline)> {
    if log == [] then None
    else match log[|log| - 1]
      case Sampled(key, value, at) =>
        if key.kind != kind then Standing(log[..|log| - 1], kind)
        else if value.Some? then Some((key, Baseline(value.value, at))) else None
      case Swept(seen) =>
        match Standing(log[..|log| - 1], kind)
        case Some((key, base)) => if key in seen then Some((key, base)) else None
        case None => None
  }

  // What a sample raises after the given history.
  function Raised(log: seq<Entry>, e: Entry): seq<Event> {
    if e.Swept? || e.value.None? then []
    else match Standing(log, e.key.kind)
      case None => []
      case Some((key, base)) =>
        if key != e.key || e.at - base.at > WINDOW || e.at < base.at then []
        else match Transition(e.key.kind, base.value, e.value.value)
          case Some(alert) => [Event(alert, e.key, e.at)]
          case None => []
  }

  function Events(log: seq<Entry>): seq<Event> {
    if log == [] then [] else Events(log[..|log| - 1]) + Raised(log[..|log| - 1], log[|log| - 1])
  }

  function Seen(samples: seq<Sample>): set<Key> { set s | s in samples :: s.key }

  function Entries(ob: Observation, n: nat): seq<Entry>
    requires n <= |ob.samples|
  {
    seq(n, i requires 0 <= i < n => Sampled(ob.samples[i].key, Usable(ob.samples[i], ob.retained), ob.now))
  }

  function Recorded(ob: Observation): seq<Entry> {
    Entries(ob, |ob.samples|) + (if ob.complete then [Swept(Seen(ob.samples))] else [])
  }

  // ---- the baseline map refines the history ----

  // One standing baseline per kind, under the selected key.
  ghost predicate Refines(baseline: map<Key, Baseline>, selected: map<Kind, Key>, log: seq<Entry>) {
    && (forall key :: key in baseline <==> Standing(log, key.kind).Some? && Standing(log, key.kind).value.0 == key)
    && (forall key :: key in baseline ==> Standing(log, key.kind).value.1 == baseline[key])
    && (forall kind :: kind in selected ==> selected[kind].kind == kind)
    && (forall key :: key in baseline ==> key.kind in selected && selected[key.kind] == key)
  }

  lemma StandingAppend(log: seq<Entry>, e: Entry, kind: Kind)
    ensures Standing(log + [e], kind) ==
      match e
      case Sampled(key, value, at) =>
        if key.kind != kind then Standing(log, kind) else if value.Some? then Some((key, Baseline(value.value, at))) else None
      case Swept(seen) => if Standing(log, kind).Some? && Standing(log, kind).value.0 in seen then Standing(log, kind) else None
    ensures Events(log + [e]) == Events(log) + Raised(log, e)
  {
    assert (log + [e])[..|log|] == log;
  }

  lemma SampleRefines(baseline: map<Key, Baseline>, selected: map<Kind, Key>, log: seq<Entry>, key: Key, value: Option<real>, at: int)
    requires Refines(baseline, selected, log)
    ensures var others := map k | k in baseline && k.kind != key.kind :: baseline[k];
      Refines(if value.Some? then others[key := Baseline(value.value, at)] else others, selected[key.kind := key], log + [Sampled(key, value, at)])
  {
    hide Standing, Events, Raised;
    forall kind: Kind ensures Standing(log + [Sampled(key, value, at)], kind)
      == if key.kind != kind then Standing(log, kind) else if value.Some? then Some((key, Baseline(value.value, at))) else None
    {
      StandingAppend(log, Sampled(key, value, at), kind);
    }
  }

  lemma SweepRefines(baseline: map<Key, Baseline>, selected: map<Kind, Key>, log: seq<Entry>, seen: set<Key>)
    requires Refines(baseline, selected, log)
    ensures Refines(map k | k in baseline && k in seen :: baseline[k], selected, log + [Swept(seen)])
  {
    hide Standing, Events, Raised;
    forall kind: Kind ensures Standing(log + [Swept(seen)], kind)
      == if Standing(log, kind).Some? && Standing(log, kind).value.0 in seen then Standing(log, kind) else None
    {
      StandingAppend(log, Swept(seen), kind);
    }
  }

  // ---- the processor as the source runs it ----

  class Processor {
    var connected: bool
    var baseline: map<Key, Baseline>
    var selected: map<Kind, Key>
    var events: seq<Event>
    ghost var log: seq<Entry>

    ghost predicate Valid()
      reads this
    {
      Refines(baseline, selected, log) && events == Events(log)
    }

    constructor ()
      ensures Valid() && !connected && log == []
    {
      connected, baseline, selected, events, log := false, map[], map[], [], [];
    }

    // Reset begins a new epoch: its history, and the events of it, start afresh.
    method Reset(connected: bool)
      modifies this
      ensures Valid() && log == [] && this.connected == connected
    {
      this.connected, baseline, selected, events, log := connected, map[], map[], [], [];
    }

    // One pass over the samples, and the sweep after a complete observation.
    method Observe(ob: Observation)
      requires Valid()
      modifies this
      ensures Valid() && connected == old(connected)
      ensures log == if connected then old(log) + Recorded(ob) else old(log)
    {
      hide *;
      if !connected {
        return;
      }
      RecordedIs(ob, log);
      TakeSamples(ob);
      if ob.complete {
        Sweep(Seen(ob.samples));
      }
    }

    // The sample loop of Observe.
    method TakeSamples(ob: Observation)
      requires Valid()
      modifies this
      ensures Valid() && connected == old(connected) && log == old(log) + Entries(ob, |ob.samples|)
    {
      hide *;
      ghost var start := log;
      var i := 0;
      NoEntries(ob, log);
      while i < |ob.samples|
        invariant i <= |ob.samples| && Valid() && connected == old(connected) && log == start + Entries(ob, i)
      {
        TakeSample(ob.samples[i], ob.retained, ob.now);
        NextEntry(ob, i, start);
        i := i + 1;
      }
    }

    method TakeSample(sample: Sample, retained: bool, now: int)
      requires Valid()
      modifies this
      ensures Valid() && connected == old(connected)
      ensures log == old(log) + [Sampled(sample.key, Usable(sample, retained), now)]
    {
      ghost var e := Sampled(sample.key, Usable(sample, retained), now);
      TakeKeeps(baseline, selected, log, events, e);
      hide Refines, Events, Raised;
      var raised;
      baseline, selected, raised := Take(baseline, selected, sample, retained, now);
      events := events + raised;
      log := log + [e];
    }

    static method Take(before: map<Key, Baseline>, selection: map<Kind, Key>, sample: Sample, retained: bool, now: int)
      returns (baseline: map<Key, Baseline>, selected: map<Kind, Key>, raised: seq<Event>)
      ensures baseline == Rebase(before, selection, sample.key, Usable(sample, retained), now)
      ensures selected == selection[sample.key.kind := sample.key]
      ensures raised == RaisedBy(Deselect(before, selection, sample.key), sample.key, Usable(sample, retained), now)
    {
      hide Transition;
      var key, kind := sample.key, sample.key.kind;
      baseline, raised := before, [];
      if kind in selection && selection[kind] != key {
        baseline := baseline - {selection[kind]};
      }
      selected := selection[kind := key];
      var previous := if key in baseline then Some(baseline[key]) else None;
      if !sample.value.Number? || retained {
        baseline := baseline - {key};
        return;
      }
      baseline := baseline[key := Baseline(sample.value.v, now)];
      if previous.None? || now - previous.value.at > WINDOW || now < previous.value.at {
        return;
      }
      var alert := Transition(kind, previous.value.value, sample.value.v);
      if alert.Some? {
        raised := [Event(alert.value, key, now)];
      }
    }

    method Sweep(seen: set<Key>)
      requires Valid()
      modifies this
      ensures Valid() && connected == old(connected) && log == old(log) + [Swept(seen)]
    {
      SweepRefines(baseline, selected, log, seen);
      StandingAppend(log, Swept(seen), Ev);
      hide Standing, Events, Refines;
      baseline := KeepSeen(baseline, seen);
      log := log + [Swept(seen)];
    }

    // The deletions of the last loop of Observe.
    static method KeepSeen(before: map<Key, Baseline>, seen: set<Key>) returns (after: map<Key, Baseline>)
      ensures after == map k | k in before && k in seen :: before[k]
    {
      after := before;
      var keys := before.Keys;
      while keys != {}
        invariant keys <= before.Keys
        invariant after == map k | k in before && (k in keys || k in seen) :: before[k]
        decreases |keys|
      {
        var key :| key in keys;
        if key !in seen {
          after := after - {key};
        }
        keys := keys - {key};
      }
    }
  }

  // ---- one sample ----

  // A newly selected identity of a kind drops the old one's baseline.
  function Deselect(baseline: map<Key, Baseline>, selected: map<Kind, Key>, key: Key): map<Key, Baseline> {
    if key.kind in selected && selected[key.kind] != key then baseline - {selected[key.kind]} else baseline
  }

  // What the source does to the baseline map for one sample.
  function Rebase(baseline: map<Key, Baseline>, selected: map<Kind, Key>, key: Key, value: Option<real>, at: int): map<Key, Baseline> {
    var kept := Deselect(baseline, selected, key);
    if value.None? then kept - {key} else kept[key := Baseline(value.value, at)]
  }

  lemma RebaseRefines(baseline: map<Key, Baseline>, selected: map<Kind, Key>, log: seq<Entry>, key: Key, value: Option<real>, at: int)
    requires Refines(baseline, selected, log)
    ensures Refines(Rebase(baseline, selected, key, value, at), selected[key.kind := key], log + [Sampled(key, value, at)])
  {
    SampleRefines(baseline, selected, log, key, value, at);
    RebaseIs(baseline, selected, key, value, at);
    hide *;
  }

  lemma RebaseIs(baseline: map<Key, Baseline>, selected: map<Kind, Key>, key: Key, value: Option<real>, at: int)
    requires forall k :: k in baseline ==> k.kind in selected && selected[k.kind] == k
    requires forall kind :: kind in selected ==> selected[kind].kind == kind
    ensures var others := map k | k in baseline && k.kind != key.kind :: baseline[k];
      Rebase(baseline, selected, key, value, at) == if value.Some? then others[key := Baseline(value.value, at)] else others
  {
  }

  function RaisedBy(baseline: map<Key, Baseline>, key: Key, value: Option<real>, at: int): seq<Event> {
    if value.None? || key !in baseline || at - baseline[key].at > WINDOW || at < baseline[key].at then []
    else match Transition(key.kind, baseline[key].value, value.value)
      case Some(alert) => [Event(alert, key, at)]
      case None => []
  }

  // Looking the key up in the map is looking at the immediately preceding sample of its kind.
  lemma RaisedByBaseline(baseline: map<Key, Baseline>, selected: map<Kind, Key>, log: seq<Entry>, key: Key, value: Option<real>, at: int)
    requires Refines(baseline, selected, log)
    ensures Raised(log, Sampled(key, value, at)) == RaisedBy(Deselect(baseline, selected, key), key, value, at)
  {
  }

  lemma TakeKeeps(baseline: map<Key, Baseline>, selected: map<Kind, Key>, log: seq<Entry>, events: seq<Event>, e: Entry)
    requires Refines(baseline, selected, log) && events == Events(log) && e.Sampled?
    ensures Refines(Rebase(baseline, selected, e.key, e.value, e.at), selected[e.key.kind := e.key], log + [e])
    ensures events + RaisedBy(Deselect(baseline, selected, e.key), e.key, e.value, e.at) == Events(log + [e])
  {
    hide Refines, Events, Raised, RaisedBy, Rebase, Deselect;
    RebaseRefines(baseline, selected, log, e.key, e.value, e.at);
    RaisedByBaseline(baseline, selected, log, e.key, e.value, e.at);
    StandingAppend(log, e, e.key.kind);
  }

  lemma NoEntries(ob: Observation, log: seq<Entry>)
    ensures log + Entries(ob, 0) == log
  {
  }

  lemma RecordedIs(ob: Observation, log: seq<Entry>)
    ensures log + Recorded(ob) == if ob.complete then log + Entries(ob, |ob.samples|) + [Swept(Seen(ob.samples))] else log + Entries(ob, |ob.samples|)
  {
    hide Entries, Seen;
  }

  lemma NextEntry(ob: Observation, i: nat, log: seq<Entry>)
    requires i < |ob.samples|
    ensures log + Entries(ob, i + 1) == log + Entries(ob, i) + [Sampled(ob.samples[i].key, Usable(ob.samples[i], ob.retained), ob.now)]
  {
  }

  // ---- what the history says ----

  // The sample at j stands as the baseline of its kind at the end of the log: it is
  // valid, the last of its kind, and no complete observation has dropped its key.
  ghost predicate StandsAt(log: seq<Entry>, kind: Kind, j: nat) {
    && j < |log| && log[j].Sampled? && log[j].key.kind == kind && log[j].value.Some?
    && forall i :: j < i < |log| ==> match log[i]
         case Sampled(k, _, _) => k.kind != kind
         case Swept(seen) => log[j].key in seen
  }

  lemma {:induction false} StandingIs(log: seq<Entry>, kind: Kind, j: nat)
    ensures StandsAt(log, kind, j) ==> Standing(log, kind) == Some((log[j].key, Baseline(log[j].value.value, log[j].at)))
    decreases |log|
  {
    if StandsAt(log, kind, j) && j < |log| - 1 {
      var n := |log| - 1;
      assert StandsAt(log[..n], kind, j);
      StandingIs(log[..n], kind, j);
    }
  }

  lemma {:induction false} StandingFrom(log: seq<Entry>, kind: Kind) returns (j: nat)
    requires Standing(log, kind).Some?
    ensures StandsAt(log, kind, j)
    decreases |log|
  {
    var n := |log| - 1;
    if log[n].Sampled? && log[n].key.kind == kind {
      j := n;
    } else {
      j := StandingFrom(log[..n], kind);
      StandingIs(log[..n], kind, j);
    }
  }

  // The sample at j is the comparison for the one at i: same identity, standing, and
  // at most 30 s before it; and the pair crosses the threshold of the alert.
  ghost predicate Crosses(log: seq<Entry>, j: nat, i: nat, alert: Alert) {
    && i < |log| && log[i].Sampled? && log[i].value.Some? && StandsAt(log[..i], log[i].key.kind, j)
    && log[j].key == log[i].key && log[j].at <= log[i].at <= log[j].at + WINDOW
    && Transition(log[i].key.kind, log[j].value.value, log[i].value.value) == Some(alert)
  }

  // A sample raises an event exactly when such a sample precedes it.
  lemma RaisesIff(log: seq<Entry>, i: nat, alert: Alert)
    requires i < |log| && log[i].Sampled?
    ensures Raised(log[..i], log[i]) == [Event(alert, log[i].key, log[i].at)] <==> exists j :: Crosses(log, j, i, alert)
  {
    hide Transition;
    var kind := log[i].key.kind;
    if j: nat :| Crosses(log, j, i, alert) {
      StandingIs(log[..i], kind, j);
    } else if Raised(log[..i], log[i]) != [] {
      var j := StandingFrom(log[..i], kind);
      StandingIs(log[..i], kind, j);
      if Raised(log[..i], log[i]) == [Event(alert, log[i].key, log[i].at)] {
        assert Crosses(log, j, i, alert);
      }
    }
  }

  // Nothing else is raised, and at most one event for each sample.
  lemma RaisesOne(log: seq<Entry>, e: Entry)
    ensures |Raised(log, e)| <= 1 && (e.Swept? ==> Raised(log, e) == [])
    ensures Raised(log, e) != [] ==> Raised(log, e)[0].key == e.key && Raised(log, e)[0].at == e.at
  {
  }

  // At most one baseline stands for each kind.
  lemma OneBaselinePerKind(p: Processor, a: Key, b: Key)
    requires p.Valid() && a in p.baseline && b in p.baseline && a.kind == b.kind
    ensures a == b
  {
  }

  ghost predicate BatteryLowAt(log: seq<Entry>, key: Key, i: nat) {
    i < |log| && log[i].Sampled? && log[i].key == key && exists j :: Crosses(log, j, i, BatteryLow)
  }

  // Two low-battery events for one key are separated by a sample of it above 20.
  lemma LowBatterySeparated(log: seq<Entry>, key: Key, a: nat, b: nat)
    requires a < b && BatteryLowAt(log, key, a) && BatteryLowAt(log, key, b)
    ensures exists m :: a < m < b && log[m].Sampled? && log[m].key == key && log[m].value.Some? && log[m].value.value > 20.0
  {
    var ja: nat :| Crosses(log, ja, a, BatteryLow);
    var jb: nat :| Crosses(log, jb, b, BatteryLow);
    assert log[..b][a] == log[a];
  }
}
