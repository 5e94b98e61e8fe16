// The native telemetry reducer: incremental updates of the leaf cache, ownership
// and availability across reconnects, against the batch reducer
// (internal/mqtt/cerbo.go:444-633, 901-919; internal/mqtt/client.go:450-457).
module Cerbo {
  import opened Wrappers

  // A leaf of the cache: service kind, instance and path below it.
  datatype Key = Key(kind: string, instance: string, path: string)

  datatype Value = Null | Number(n: int) | Text(s: string)

  type Leaves = map<Key, Value>

  // What a payload's JSON envelope carries.
  datatype Payload = Empty | Malformed | Carries(value: Raw)

  datatype Raw = RawNull | RawNumber(n: int) | RawText(s: string) | RawOther

  // A split topic N/portal/kind/instance/path; short topics have no path.
  datatype Message = Message(portal: string, kind: string, instance: string, numeric: bool, path: Option<string>, payload: Payload)

  // The reduction of the leaves to state fields, which fields are collections, and
  // the direct fields that a lost connection clears.
  datatype Config = Config(overlay: Leaves -> map<string, int>, collections: set<string>, direct: set<string>, portal: string)

  // A field is untouched, a cleared collection, a cleared scalar (the zero value a
  // fresh state has too), or a value.
  datatype Field = Zero | Cleared | Holds(v: int)

  datatype Core = Core(leaves: Leaves, owned: set<string>, available: map<string, bool>, fields: map<string, Field>, essObserved: bool)

  const ESS := "ess_mode"
  const HUB_MODE := "/Settings/CGwacs/Hub4Mode"

  predicate EndsWith(s: string, suffix: string) {
    |suffix| <= |s| && s[|s| - |suffix|..] == suffix
  }

  predicate HubKey(k: Key) { k.kind == "settings" && EndsWith("/" + k.path, HUB_MODE) }

  predicate HubPresent(leaves: Leaves) { exists k :: k in leaves && HubKey(k) }

  function Available(c: Core, key: string): bool { key in c.available && c.available[key] }

  function FieldOf(c: Core, key: string): Field { if key in c.fields then c.fields[key] else Zero }

  const FRESH := Core(map[], {}, map[], map[], false)

  function ClearedField(cfg: Config, key: string): Field { if key in cfg.collections then Cleared else Zero }

  // ---- applyCerboOverlays ----

  function Flags(keys: set<string>, v: bool): map<string, bool> { map k | k in keys :: v }

  function Clears(cfg: Config, keys: set<string>): map<string, Field> { map k | k in keys :: ClearedField(cfg, k) }

  function Shows(out: map<string, int>, keys: set<string>): map<string, Field> { map k | k in keys && k in out :: Holds(out[k]) }

  // Owned fields the reduction no longer shows are cleared; those it shows are
  // written, owned and available.
  function Apply(cfg: Config, c: Core): Core {
    var out := cfg.overlay(c.leaves);
    var owned := if HubPresent(c.leaves) then c.owned + {ESS} else c.owned;
    Core(c.leaves, owned + out.Keys,
         c.available + Flags(owned - out.Keys, false) + Flags(out.Keys, true),
         c.fields + Clears(cfg, owned - out.Keys) + Shows(out, out.Keys),
         ESS in owned)
  }

  // CerboSnapshotToState: the same reducer on a fresh client.
  function Batch(cfg: Config, leaves: Leaves): Core { Apply(cfg, FRESH.(leaves := leaves)) }

  // ---- handleCerboDevice ----

  predicate Supported(kind: string) {
    kind in {"system", "grid", "battery", "solarcharger", "pvinverter", "vebus", "acload", "tank", "pump", "ev", "evcharger", "settings"}
  }

  predicate Metadata(path: string) {
    EndsWith(path, "Name") || path == "Serial" || EndsWith(path, "CellId") || path == "Dc/Battery/BatteryService"
  }

  // What an accepted message, a new subscription or a lost connection does to the cache.
  datatype Update = Rejected | Remove(kind: string, instance: string) | Write(key: Key, value: Value) | Subscribed | Lost

  function Classify(cfg: Config, m: Message): Update {
    if !Supported(m.kind) || (cfg.portal != "" && m.portal != cfg.portal) || !m.numeric then Rejected
    else if m.payload.Empty? then Remove(m.kind, m.instance)
    else if m.path.None? || m.payload.Malformed? then Rejected
    else
      var key := Key(m.kind, m.instance, m.path.value);
      match m.payload.value
      case RawNull => Write(key, Null)
      case RawNumber(n) => Write(key, if key.path == "Connected" && n != 0 && n != 1 then Null else Number(n))
      case RawText(s) => if key.path == "Connected" then Write(key, Null) else if Metadata(key.path) then Write(key, Text(s)) else Rejected
      case RawOther => if key.path == "Connected" then Write(key, Null) else Rejected
  }

  function Without(leaves: Leaves, kind: string, instance: string): Leaves {
    map k | k in leaves && !(k.kind == kind && k.instance == instance) :: leaves[k]
  }

  // A null discovers its dependent fields with a temporary sample, so that stale
  // daemon data cannot win them.
  function Discovered(cfg: Config, c: Core, key: Key, value: Value): set<string> {
    if value.Null? then c.owned + cfg.overlay(c.leaves[key := Number(0)]).Keys else c.owned
  }

  // invalidateCerbo: the cache goes and the direct fields are cleared; ownership and
  // the ESS flag stay.
  function Lose(cfg: Config, c: Core): Core {
    c.(leaves := map[], available := c.available + Flags(cfg.direct, false), fields := c.fields + Clears(cfg, cfg.direct))
  }

  // Subscribe: a fresh device inventory under the ownership of the earlier sessions.
  function Refresh(cfg: Config, c: Core): Core { Apply(cfg, c.(leaves := map[])) }

  function Handle(cfg: Config, c: Core, u: Update): Core {
    match u
    case Rejected => c
    case Subscribed => Refresh(cfg, c)
    case Lost => Lose(cfg, c)
    case Remove(kind, instance) => Apply(cfg, c.(leaves := Without(c.leaves, kind, instance)))
    case Write(key, value) => Apply(cfg, c.(owned := Discovered(cfg, c, key, value), leaves := c.leaves[key := value]))
  }

  // The first Subscribe comes before any handler is bound.
  function Run(cfg: Config, history: seq<Update>): Core {
    if history == [] then Refresh(cfg, FRESH) else Handle(cfg, Run(cfg, history[..|history| - 1]), history[|history| - 1])
  }

  // ---- the cache is the last-writer-wins map of the history ----

  function Latest(history: seq<Update>, key: Key): Option<Value>
    decreases |history|
  {
    if history == [] then None
    else match history[|history| - 1]
      case Write(k, value) => if k == key then Some(value) else Latest(history[..|history| - 1], key)
      case Remove(kind, instance) =>
        if kind == key.kind && instance == key.instance then None else Latest(history[..|history| - 1], key)
      case Rejected => Latest(history[..|history| - 1], key)
      case Subscribed => None
      case Lost => None
  }

  lemma {:induction false} LastWriterWins(cfg: Config, history: seq<Update>, key: Key)
    ensures Latest(history, key) == if key in Run(cfg, history).leaves then Some(Run(cfg, history).leaves[key]) else None
    decreases |history|
  {
    if history != [] {
      LastWriterWins(cfg, history[..|history| - 1], key);
    }
  }

  // ---- incremental equals batch ----

  predicate EverLost(history: seq<Update>) { Lost in history }

  // No loss is still waiting for its new subscription.
  predicate Live(history: seq<Update>)
    decreases |history|
  {
    history == []
    || (!history[|history| - 1].Lost? && (history[|history| - 1].Rejected? ==> Live(history[..|history| - 1])))
  }

  // A field the reduction does not show is cleared when it was ever owned, or when a
  // loss cleared it; otherwise it was never set.
  predicate Emptied(cfg: Config, c: Core, lost: bool, key: string) { key in c.owned || (lost && key in cfg.direct) }

  // What a core's fields say once the overlays were applied to its cache.
  ghost predicate Reduced(cfg: Config, c: Core, lost: bool) {
    var out := cfg.overlay(c.leaves);
    && out.Keys <= c.owned && (HubPresent(c.leaves) ==> ESS in c.owned)
    && (forall key :: Available(c, key) <==> key in out)
    && (forall key :: FieldOf(c, key) == if key in out then Holds(out[key]) else if Emptied(cfg, c, lost, key) then ClearedField(cfg, key) else Zero)
  }

  // Fields nobody owned yet are unavailable and hold nothing.
  ghost predicate Tidy(cfg: Config, c: Core, lost: bool) {
    forall key :: key !in c.owned ==>
      !Available(c, key) && FieldOf(c, key) == if lost && key in cfg.direct then ClearedField(cfg, key) else Zero
  }

  // What the two passes make of one field.
  lemma ApplyAt(cfg: Config, c: Core, key: string)
    ensures var d, out := Apply(cfg, c), cfg.overlay(c.leaves);
      && Available(d, key) == (key in out || (key !in d.owned && Available(c, key)))
      && FieldOf(d, key) == if key in out then Holds(out[key]) else if key in d.owned then ClearedField(cfg, key) else FieldOf(c, key)
  {
    hide HubKey, ClearedField;
  }

  lemma ApplyReduces(cfg: Config, c: Core, lost: bool)
    requires Tidy(cfg, c, lost)
    ensures Reduced(cfg, Apply(cfg, c), lost) && Tidy(cfg, Apply(cfg, c), lost)
  {
    ApplyOwns(cfg, c);
    var d, out := Apply(cfg, c), cfg.overlay(c.leaves);
    hide Apply, HubPresent, Available, FieldOf, ClearedField;
    forall key ensures Available(d, key) <==> key in out {
      ApplyAt(cfg, c, key);
    }
    forall key ensures FieldOf(d, key) == if key in out then Holds(out[key]) else if Emptied(cfg, d, lost, key) then ClearedField(cfg, key) else Zero {
      ApplyAt(cfg, c, key);
    }
  }

  lemma ApplyOwns(cfg: Config, c: Core)
    ensures var d := Apply(cfg, c);
      d.leaves == c.leaves && c.owned <= d.owned && cfg.overlay(c.leaves).Keys <= d.owned && (HubPresent(c.leaves) ==> ESS in d.owned)
  {
    hide HubPresent, Flags, Clears, Shows;
  }

  lemma LoseTidies(cfg: Config, c: Core, lost: bool)
    requires Tidy(cfg, c, lost)
    ensures Tidy(cfg, Lose(cfg, c), true)
  {
  }

  // A change of the cache and a growth of ownership keep what nobody owns tidy.
  lemma TidyKept(cfg: Config, c: Core, d: Core, lost: bool)
    requires Tidy(cfg, c, lost) && d.available == c.available && d.fields == c.fields && c.owned <= d.owned
    ensures Tidy(cfg, d, lost)
  {
    hide Available, FieldOf;
    assert forall key :: Available(d, key) == Available(c, key) && FieldOf(d, key) == FieldOf(c, key) by {
      SameFields(c, d);
    }
  }

  lemma SameFields(c: Core, d: Core)
    requires d.available == c.available && d.fields == c.fields
    ensures forall key :: Available(d, key) == Available(c, key) && FieldOf(d, key) == FieldOf(c, key)
  {
  }

  lemma FreshTidy(cfg: Config)
    ensures Tidy(cfg, FRESH, false)
  {
  }

  lemma {:induction false} RunReduced(cfg: Config, history: seq<Update>)
    ensures Tidy(cfg, Run(cfg, history), EverLost(history))
    ensures Live(history) ==> Reduced(cfg, Run(cfg, history), EverLost(history))
    decreases |history|
  {
    if history == [] {
      FreshTidy(cfg);
      ApplyReduces(cfg, FRESH, false);
    } else {
      var n := |history| - 1;
      RunReduced(cfg, history[..n]);
      assert history == history[..n] + [history[n]];
      assert EverLost(history) == (EverLost(history[..n]) || history[n].Lost?);
      hide Reduced, Tidy, Handle, EverLost;
      StepReduced(cfg, Run(cfg, history[..n]), history[n], EverLost(history[..n]));
    }
  }

  lemma StepReduced(cfg: Config, c: Core, u: Update, lost: bool)
    requires Tidy(cfg, c, lost)
    ensures Tidy(cfg, Handle(cfg, c, u), lost || u.Lost?)
    ensures !u.Lost? && !u.Rejected? ==> Reduced(cfg, Handle(cfg, c, u), lost)
  {
    hide Reduced, Tidy, Apply, Lose, Discovered, Without;
    match u
    case Rejected =>
    case Lost => LoseTidies(cfg, c, lost);
    case Subscribed => Reapplied(cfg, c, c.(leaves := map[]), lost);
    case Remove(kind, instance) => Reapplied(cfg, c, c.(leaves := Without(c.leaves, kind, instance)), lost);
    case Write(key, value) =>
      var owned := Discovered(cfg, c, key, value);
      assert c.owned <= owned by { DiscoveredGrows(cfg, c, key, value); }
      Reapplied(cfg, c, c.(owned := owned, leaves := c.leaves[key := value]), lost);
  }

  lemma DiscoveredGrows(cfg: Config, c: Core, key: Key, value: Value)
    ensures c.owned <= Discovered(cfg, c, key, value)
  {
  }

  lemma Reapplied(cfg: Config, c: Core, d: Core, lost: bool)
    requires Tidy(cfg, c, lost) && d.available == c.available && d.fields == c.fields && c.owned <= d.owned
    ensures Reduced(cfg, Apply(cfg, d), lost) && Tidy(cfg, Apply(cfg, d), lost)
  {
    hide Tidy, Reduced, Apply;
    TidyKept(cfg, c, d, lost);
    ApplyReduces(cfg, d, lost);
  }

  // Across any history of readings, tombstones, losses and new subscriptions:
  // availability is exactly the batch reducer's; every field is the batch value, or
  // nothing where the batch has none, so nothing stale survives; and a field differs from
  // the batch only as an emptied collection differs from one never set.
  lemma IncrementalEqualsBatch(cfg: Config, history: seq<Update>, key: string)
    requires Live(history)
    ensures var c := Run(cfg, history); var b := Batch(cfg, c.leaves);
      && Available(c, key) == Available(b, key)
      && (key in cfg.overlay(c.leaves) ==> FieldOf(c, key) == FieldOf(b, key) == Holds(cfg.overlay(c.leaves)[key]))
      && (key !in cfg.overlay(c.leaves) ==> !FieldOf(c, key).Holds? && !FieldOf(b, key).Holds?)
      && (key != ESS || ESS !in cfg.collections ==>
            (FieldOf(c, key) == FieldOf(b, key)
             <==> key in cfg.overlay(c.leaves) || !Emptied(cfg, c, EverLost(history), key) || key !in cfg.collections))
  {
    hide Run, HubPresent, Tidy;
    RunReduced(cfg, history);
    BatchReduced(cfg, Run(cfg, history).leaves);
    hide Batch;
  }

  lemma BatchReduced(cfg: Config, leaves: Leaves)
    ensures Reduced(cfg, Batch(cfg, leaves), false) && Batch(cfg, leaves).leaves == leaves
    ensures Batch(cfg, leaves).owned <= cfg.overlay(leaves).Keys + {ESS}
  {
    FreshTidy(cfg);
    ApplyReduces(cfg, FRESH.(leaves := leaves), false);
  }

  // Two histories that leave the same cache leave the same availability and the same values.
  lemma HistoryIrrelevant(cfg: Config, a: seq<Update>, b: seq<Update>, key: string)
    requires Live(a) && Live(b) && forall k :: Latest(a, k) == Latest(b, k)
    ensures Available(Run(cfg, a), key) == Available(Run(cfg, b), key)
    ensures FieldOf(Run(cfg, a), key).Holds? || FieldOf(Run(cfg, b), key).Holds? ==> FieldOf(Run(cfg, a), key) == FieldOf(Run(cfg, b), key)
  {
    var c, d := Run(cfg, a), Run(cfg, b);
    hide Live;
    forall k ensures (k in c.leaves <==> k in d.leaves) && (k in c.leaves ==> c.leaves[k] == d.leaves[k]) {
      LastWriterWins(cfg, a, k);
      LastWriterWins(cfg, b, k);
    }
    assert c.leaves == d.leaves;
    IncrementalEqualsBatch(cfg, a, key);
    IncrementalEqualsBatch(cfg, b, key);
  }

  // Only direct fields are ever shown.
  lemma {:induction false} OthersNever(cfg: Config, history: seq<Update>, key: string)
    requires (forall leaves :: cfg.overlay(leaves).Keys <= cfg.direct) && key !in cfg.direct
    ensures !Available(Run(cfg, history), key) && !FieldOf(Run(cfg, history), key).Holds?
    decreases |history|
  {
    if Live(history) {
      RunReduced(cfg, history);
    } else {
      OthersNever(cfg, history[..|history| - 1], key);
      hide Apply;
    }
  }

  // A lost connection leaves nothing available and nothing shown.
  lemma LossClears(cfg: Config, history: seq<Update>, key: string)
    requires forall leaves :: cfg.overlay(leaves).Keys <= cfg.direct
    ensures var c := Run(cfg, history + [Lost]);
      c.leaves == map[] && !Available(c, key) && !FieldOf(c, key).Holds?
  {
    RunStep(cfg, history, Lost);
    hide Run;
    if key !in cfg.direct {
      OthersNever(cfg, history, key);
    }
  }

  // A batch value shown for one device leaf and gone with its service stays behind as an
  // emptied collection, which the batch reducer never sets.
  lemma CollectionTombstone(cfg: Config, key: Key, value: Value, field: string)
    requires field in cfg.collections && field in cfg.overlay(map[key := value]) && field !in cfg.overlay(map[])
    requires field != ESS
    ensures var c := Run(cfg, [Write(key, value), Remove(key.kind, key.instance)]);
      c.leaves == map[] && FieldOf(c, field) == Cleared && FieldOf(Batch(cfg, c.leaves), field) == Zero
  {
    var write, remove := Write(key, value), Remove(key.kind, key.instance);
    WriteRemove(cfg, key, value);
    hide Run, HubPresent, Tidy, Batch, FieldOf, Available;
    RunReduced(cfg, [write]);
    RunReduced(cfg, [write, remove]);
    BatchReduced(cfg, map[]);
  }

  lemma WriteRemove(cfg: Config, key: Key, value: Value)
    ensures var c, d := Run(cfg, [Write(key, value)]), Run(cfg, [Write(key, value), Remove(key.kind, key.instance)]);
      c.leaves == map[key := value] && d.leaves == map[] && c.owned <= d.owned
  {
    TwoSteps(cfg, Write(key, value), Remove(key.kind, key.instance));
    hide Run;
    var c, d := Run(cfg, [Write(key, value)]), Run(cfg, [Write(key, value), Remove(key.kind, key.instance)]);
    assert c.leaves == map[key := value];
    assert d.leaves == map[];
  }

  lemma TwoSteps(cfg: Config, first: Update, second: Update)
    ensures Run(cfg, [first]) == Handle(cfg, Refresh(cfg, FRESH), first)
    ensures Run(cfg, [first, second]) == Handle(cfg, Run(cfg, [first]), second)
  {
    RunStep(cfg, [], first);
    RunStep(cfg, [first], second);
    assert [] + [first] == [first] && [first] + [second] == [first, second];
  }

  // The three fields that are always shown, and the batteries while a battery is there.
  function Home(leaves: Leaves): map<string, int> {
    var always := map["discovered_water_ev" := 0, "ev_present" := 0, "evcharger_present" := 0];
    if exists k :: k in leaves && k.kind == "battery" then always["batteries" := 1] else always
  }

  // One battery reading and its tombstone: the dashboard shows an empty list of
  // batteries, the gateway snapshot none.
  lemma BatteriesEmptied(direct: set<string>, portal: string, n: int)
    ensures var cfg := Config(Home, {"batteries", "discovered_water_ev"}, direct, portal);
      var c := Run(cfg, [Write(Key("battery", "288", "Soc"), Number(n)), Remove("battery", "288")]);
      FieldOf(c, "batteries") == Cleared && FieldOf(Batch(cfg, c.leaves), "batteries") == Zero
  {
    var cfg := Config(Home, {"batteries", "discovered_water_ev"}, direct, portal);
    var key := Key("battery", "288", "Soc");
    assert key in map[key := Number(n)];
    CollectionTombstone(cfg, key, Number(n), "batteries");
  }

  // ---- the observed ESS flag ----

  // The reduction shows an ESS mode only from a Hub4Mode leaf.
  ghost predicate EssNeedsHub(cfg: Config) {
    forall leaves :: ESS in cfg.overlay(leaves) ==> HubPresent(leaves)
  }

  predicate HubEver(cfg: Config, history: seq<Update>)
    decreases |history|
  {
    HubPresent(Run(cfg, history).leaves) || (history != [] && HubEver(cfg, history[..|history| - 1]))
  }

  lemma HubWritten(leaves: Leaves, key: Key, value: Value)
    ensures HubPresent(leaves[key := value]) == (HubPresent(leaves) || HubKey(key))
  {
    var l := leaves[key := value];
    if HubPresent(leaves) {
      var k :| k in leaves && HubKey(k);
      assert k in l;
    }
    if HubKey(key) {
      assert key in l;
    }
  }

  lemma {:induction false} EssOwned(cfg: Config, history: seq<Update>)
    requires EssNeedsHub(cfg)
    ensures ESS in Run(cfg, history).owned <==> HubEver(cfg, history)
    ensures Run(cfg, history).essObserved <==> HubEver(cfg, history)
    decreases |history|
  {
    if history != [] {
      var n := |history| - 1;
      EssOwned(cfg, history[..n]);
      var c := Run(cfg, history[..n]);
      match history[n]
      case Rejected =>
      case Subscribed =>
      case Lost =>
      case Remove(kind, instance) =>
      case Write(key, value) =>
        HubWritten(c.leaves, key, value);
        HubWritten(c.leaves, key, Number(0));
    }
  }

  // The flag agrees with the batch reducer exactly when the Hub4Mode leaf is there
  // now or never was: a settings tombstone clears the mode and leaves the flag set.
  lemma EssObservedIff(cfg: Config, history: seq<Update>)
    requires EssNeedsHub(cfg)
    ensures var c := Run(cfg, history);
      c.essObserved == Batch(cfg, c.leaves).essObserved <==> HubPresent(c.leaves) || !HubEver(cfg, history)
  {
    EssOwned(cfg, history);
  }

  lemma RunStep(cfg: Config, history: seq<Update>, u: Update)
    ensures Run(cfg, history + [u]) == Handle(cfg, Run(cfg, history), u)
  {
    assert (history + [u])[..|history|] == history;
  }

  // Whatever else the reduction shows, one Hub4Mode reading and the service's tombstone
  // are enough to differ.
  lemma EssTombstone(cfg: Config, key: Key, value: Value)
    requires EssNeedsHub(cfg) && HubKey(key)
    ensures var c := Run(cfg, [Write(key, value), Remove(key.kind, key.instance)]);
      c.leaves == map[] && c.essObserved && !Batch(cfg, c.leaves).essObserved
  {
    var write, remove := Write(key, value), Remove(key.kind, key.instance);
    hide Run, HubEver, Apply, EssNeedsHub, Batch, HubKey;
    EssOwned(cfg, [write, remove]);
    WriteRemove(cfg, key, value);
    assert key in Run(cfg, [write]).leaves;
    HubEverNow(cfg, [write]);
    assert [write] + [remove] == [write, remove];
    HubEverStep(cfg, [write], remove);
    NoHub(cfg, map[]);
  }

  lemma NoHub(cfg: Config, leaves: Leaves)
    requires leaves == map[]
    ensures !Batch(cfg, leaves).essObserved
  {
  }

  lemma HubEverNow(cfg: Config, history: seq<Update>)
    ensures HubPresent(Run(cfg, history).leaves) ==> HubEver(cfg, history)
  {
  }

  lemma HubEverStep(cfg: Config, history: seq<Update>, u: Update)
    ensures HubEver(cfg, history) ==> HubEver(cfg, history + [u])
  {
    assert (history + [u])[..|history|] == history;
  }

  // ---- the reducer as the source runs it ----

  lemma ClearNothing(cfg: Config, a: map<string, bool>, f: map<string, Field>)
    ensures a + Flags({}, false) == a && f + Clears(cfg, {}) == f
  {
  }

  lemma ClearOne(cfg: Config, a: map<string, bool>, f: map<string, Field>, keys: set<string>, key: string)
    ensures (a + Flags(keys, false))[key := false] == a + Flags(keys + {key}, false)
    ensures (f + Clears(cfg, keys))[key := ClearedField(cfg, key)] == f + Clears(cfg, keys + {key})
  {
  }

  lemma ShowNothing(out: map<string, int>, a: map<string, bool>, f: map<string, Field>)
    ensures a + Flags({}, true) == a && f + Shows(out, {}) == f
  {
  }

  lemma ShowOne(out: map<string, int>, a: map<string, bool>, f: map<string, Field>, keys: set<string>, key: string)
    requires key in out
    ensures (a + Flags(keys, true))[key := true] == a + Flags(keys + {key}, true)
    ensures (f + Shows(out, keys))[key := Holds(out[key])] == f + Shows(out, keys + {key})
  {
  }

  class Reducer {
    const cfg: Config
    var core: Core

    constructor (c: Config)
      ensures cfg == c && core == FRESH
    {
      cfg := c;
      core := FRESH;
    }

    // Subscribe, under stateMu: drop the cache and apply the overlays.
    method Subscribe()
      modifies this
      ensures core == Refresh(cfg, old(core))
    {
      core := core.(leaves := map[]);
      ApplyOverlays();
    }

    // invalidateCerbo: one pass over the direct fields.
    method Invalidate()
      modifies this
      ensures core == Lose(cfg, old(core))
    {
      hide Flags, Clears;
      var available, fields := ClearMissing(cfg.direct, core.available, core.fields);
      core := core.(leaves := map[], available := available, fields := fields);
    }

    method ClearMissing(gone: set<string>, available0: map<string, bool>, fields0: map<string, Field>)
      returns (available: map<string, bool>, fields: map<string, Field>)
      ensures available == available0 + Flags(gone, false)
      ensures fields == fields0 + Clears(cfg, gone)
    {
      hide Flags, Clears, ClearedField;
      available, fields := available0, fields0;
      var keys := gone;
      assert gone - keys == {};
      ClearNothing(cfg, available0, fields0);
      while keys != {}
        invariant keys <= gone
        invariant available == available0 + Flags(gone - keys, false)
        invariant fields == fields0 + Clears(cfg, gone - keys)
        decreases |keys|
      {
        var key :| key in keys;
        ClearOne(cfg, available0, fields0, gone - keys, key);
        fields := fields[key := ClearedField(cfg, key)];
        available := available[key := false];
        assert gone - (keys - {key}) == gone - keys + {key};
        keys := keys - {key};
      }
      assert gone - keys == gone;
    }

    method ShowPresent(out: map<string, int>, available0: map<string, bool>, fields0: map<string, Field>)
      returns (available: map<string, bool>, fields: map<string, Field>)
      ensures available == available0 + Flags(out.Keys, true)
      ensures fields == fields0 + Shows(out, out.Keys)
    {
      hide Flags, Shows;
      available, fields := available0, fields0;
      var keys := out.Keys;
      assert out.Keys - keys == {};
      ShowNothing(out, available0, fields0);
      while keys != {}
        invariant keys <= out.Keys
        invariant available == available0 + Flags(out.Keys - keys, true)
        invariant fields == fields0 + Shows(out, out.Keys - keys)
        decreases |keys|
      {
        var key :| key in keys;
        ShowOne(out, available0, fields0, out.Keys - keys, key);
        fields := fields[key := Holds(out[key])];
        available := available[key := true];
        assert out.Keys - (keys - {key}) == out.Keys - keys + {key};
        keys := keys - {key};
      }
      assert out.Keys - keys == out.Keys;
    }

    // applyCerboOverlays: one pass over the owned keys and one over the reduction.
    method ApplyOverlays()
      modifies this
      ensures core == Apply(cfg, old(core))
    {
      hide Flags, Clears, Shows, HubKey;
      var out := cfg.overlay(core.leaves);
      var owned := core.owned;
      if exists k :: k in core.leaves && HubKey(k) {
        owned := owned + {ESS};
      }
      var observed := ESS in owned;
      var available, fields := ClearMissing(owned - out.Keys, core.available, core.fields);
      available, fields := ShowPresent(out, available, fields);
      core := Core(core.leaves, owned + out.Keys, available, fields, observed);
    }

    // handleCerboDevice
    method HandleDevice(m: Message) returns (changed: bool)
      modifies this
      ensures core == Handle(cfg, old(core), Classify(cfg, m))
      ensures changed == !Classify(cfg, m).Rejected?
    {
      if !Supported(m.kind) || (cfg.portal != "" && m.portal != cfg.portal) || !m.numeric {
        return false;
      }
      if m.payload.Empty? {
        var leaves := core.leaves;
        var keys := leaves.Keys;
        while keys != {}
          invariant keys <= core.leaves.Keys && core == old(core)
          invariant forall k :: k in leaves <==> k in core.leaves && (k in keys || !(k.kind == m.kind && k.instance == m.instance))
          invariant forall k :: k in leaves ==> leaves[k] == core.leaves[k]
          decreases |keys|
        {
          var key :| key in keys;
          if key.kind == m.kind && key.instance == m.instance {
            leaves := leaves - {key};
          }
          keys := keys - {key};
        }
        assert leaves == Without(core.leaves, m.kind, m.instance);
        core := core.(leaves := leaves);
        ApplyOverlays();
        return true;
      }
      if m.path.None? || m.payload.Malformed? {
        return false;
      }
      var path, raw := m.path.value, m.payload.value;
      if path == "Connected" && !raw.RawNull? {
        if !raw.RawNumber? || (raw.n != 0 && raw.n != 1) {
          raw := RawNull;
        }
      }
      if raw.RawText? && !Metadata(path) {
        return false;
      }
      if raw.RawOther? {
        return false;
      }
      var key := Key(m.kind, m.instance, path);
      var value := match raw case RawNumber(n) => Number(n) case RawText(s) => Text(s) case _ => Null;
      var leaves, owned := core.leaves, core.owned;
      if value.Null? {
        leaves := leaves[key := Number(0)];
        owned := owned + cfg.overlay(leaves).Keys;
      }
      leaves := leaves[key := value];
      assert leaves == core.leaves[key := value];
      core := core.(leaves := leaves, owned := owned);
      ApplyOverlays();
      return true;
    }
  }
}
