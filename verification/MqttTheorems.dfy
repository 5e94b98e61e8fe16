// What the invariant means for every run of the telemetry client.
module MqttTheorems {
  import opened Wrappers
  import opened MqttMachine
  import opened MqttInvariant
  import opened MqttPreserve
  import opened MqttSteps

  // A run: its worlds, and who moves between each and the next.
  ghost predicate IsRun(ws: seq<World>, ts: seq<Option<Tid>>) {
    && |ws| == |ts| + 1 && Initial(ws[0])
    && forall i :: 0 <= i < |ts| ==> Step(ws[i], ts[i], ws[i + 1])
  }

  lemma {:induction false} RunKeeps(ws: seq<World>, ts: seq<Option<Tid>>, i: nat)
    requires IsRun(ws, ts) && i < |ws|
    ensures Inv(ws[i])
  {
    hide Inv, Step, Initial;
    if i == 0 {
      InitialInv(ws[0]);
    } else {
      RunKeeps(ws, ts, i - 1);
      StepKept(ws[i - 1], ts[i - 1], ws[i]);
    }
  }

  // ---- session fencing ----

  // Throughout the write section of a callback bound to session s, the session is
  // still s, gateway mode is off, the generation is the one the callback read, and
  // it holds both locks, so nobody else is inside stateMu.
  lemma WriteSectionFenced(ws: seq<World>, ts: seq<Option<Tid>>, i: nat, t: Tid)
    requires IsRun(ws, ts) && i < |ws| && ws[i].Pc(t).Callback? && ws[i].Pc(t).at.Writing?
    ensures var w := ws[i]; Fenced(w, w.Pc(t).session, w.Pc(t).generation) && t in w.gw.readers && w.st == Lock(Some(t), {})
    ensures ws[i].gw.writer.None?
  {
    hide Step;
    RunKeeps(ws, ts, i);
    InvFine(ws[i], t);
  }

  // A callback changes the shared state only inside that section.
  lemma CallbackWritesInside(w: World, t: Tid, w': World)
    requires GoroutineStep(w, t, w') && w.Pc(t).Callback? && !w.Pc(t).at.Writing?
    ensures w'.data == w.data && w'.log == w.log && w'.session == w.session && w'.mode == w.mode
  {
    hide CallbackWrite, CommandMove, SourceEffect, CommandEffect;
  }

  lemma {:induction false} SessionsGrow(ws: seq<World>, ts: seq<Option<Tid>>, i: nat, j: nat)
    requires IsRun(ws, ts) && i <= j < |ws|
    ensures ws[i].session <= ws[j].session
  {
    hide Step;
    if i < j {
      SessionsGrow(ws, ts, i, j - 1);
      SessionStep(ws[j - 1], ts[j - 1], ws[j]);
    }
  }

  lemma SessionStep(w: World, who: Option<Tid>, w': World)
    requires Step(w, who, w')
    ensures w.session <= w'.session
  {
    hide CallbackMove, CommandMove, SourceMove, SourceEffect, May, CallbackWrite, CommandEffect, BeginStep, Happens;
    match who
    case Some(t) =>
      if BeginStep(w, t, w') {
        BeginSession(w, t, w');
      } else if SourceStep(w, t, w') {
        SourceSession(w, w.Pc(t));
      } else if w.Pc(t).Callback? {
        if Applying(w.Pc(t)) { EffectControl(w, t); }
      } else {
        EffectSession(w, t, w.Pc(t));
      }
    case None =>
      var c: Event :| May(w, c) && w' == Happens(w, c);
      WorldControl(w, c);
  }

  lemma SourceSession(w: World, pc: Pc)
    ensures w.session <= SourceEffect(w, pc).session
  {
  }

  lemma EffectSession(w: World, t: Tid, pc: Pc)
    requires pc.Run?
    ensures CommandEffect(w, t, pc).session == w.session
  {
  }

  lemma BeginSession(w: World, t: Tid, w': World)
    requires BeginStep(w, t, w')
    ensures w'.session == w.session
  {
    hide BeginWork, BeginGateway, BeginSource;
    if BeginWork(w, t, w') {
      BeginWorkSession(w, t, w');
    } else if BeginGateway(w, t, w') {
      BeginGatewaySession(w, t, w');
    } else {
      BeginSourceSession(w, t, w');
    }
  }

  lemma BeginWorkSession(w: World, t: Tid, w': World)
    requires BeginWork(w, t, w')
    ensures w'.session == w.session
  {
  }

  lemma BeginGatewaySession(w: World, t: Tid, w': World)
    requires BeginGateway(w, t, w')
    ensures w'.session == w.session
  {
  }

  lemma BeginSourceSession(w: World, t: Tid, w': World)
    requires BeginSource(w, t, w')
    ensures w'.session == w.session
  {
  }

  // Once the session has advanced past s, no callback bound to s writes again,
  // whatever else the run does.
  lemma RetiredCallbackNeverWrites(ws: seq<World>, ts: seq<Option<Tid>>, i: nat, j: nat, t: Tid)
    requires IsRun(ws, ts) && i <= j < |ts| && ts[j] == Some(t) && ws[j].Pc(t).Callback? && ws[j].Pc(t).session < ws[i].session
    ensures ws[j + 1].data == ws[j].data && ws[j + 1].log == ws[j].log
  {
    assert Step(ws[j], ts[j], ws[j + 1]);
    hide GoroutineStep, WorldStep;
    SessionsGrow(ws, ts, i, j);
    if ws[j].Pc(t).at.Writing? {
      WriteSectionFenced(ws, ts, j, t);
    } else {
      CallbackWritesInside(ws[j], t, ws[j + 1]);
    }
  }

  // Whenever no source change is under way, every native banner on display was put
  // there by the current session, or by the gateway in gateway mode.
  lemma NativeBannersAreCurrent(ws: seq<World>, ts: seq<Option<Tid>>, i: nat)
    requires IsRun(ws, ts) && i < |ws| && ws[i].gw.writer.None?
    ensures forall n :: n in ws[i].data.notes && n.native ==> if ws[i].mode then n.owner.Gateway? else n.owner == Session(ws[i].session)
  {
    hide Step;
    RunKeeps(ws, ts, i);
    assert Shared(ws[i]);
    assert BannerInv(ws[i]);
  }

  // ---- acknowledgements ----

  // publishControllerCommand reports success only for an answer received after its
  // dispatch, in the same session and generation, with a newer receipt, not
  // retained and exactly matching, and no later frame or snapshot had replaced it.
  lemma AcknowledgementPaired(ws: seq<World>, ts: seq<Option<Tid>>, i: nat, c: nat)
    requires IsRun(ws, ts) && i < |ws| && c < |ws[i].log| && ws[i].log[c].Confirmed?
    ensures exists f, k :: ConfirmedBy(ws[i].log[..c], ws[i].log[c], f, k)
  {
    hide Step, ConfirmedBy;
    RunKeeps(ws, ts, i);
    assert Shared(ws[i]);
    assert EntryBacked(ws[i].log[..c], ws[i].log[c]);
  }

  // ---- command freshness ----

  predicate SetsController(e: Entry) { e.Heard? || (e.Snapshot? && e.snap.envelope.Some?) }

  predicate Fresh(at: nat, checkedAt: nat) { at <= checkedAt <= at + FRESH }

  // A live frame or available envelope at most 30 s old, which nothing replaced.
  predicate FreshController(before: seq<Entry>, e: Entry, k: nat)
    requires e.Sent?
  {
    && k < |before| && (before[k].Heard? || before[k].Snapshot?)
    && LiveController(Some(before[k]), before[k].at) && Fresh(before[k].at, e.checkedAt)
    && forall i :: k < i < |before| ==> !SetsController(before[i])
  }

  predicate SetsMode(e: Entry, device: Device) { (e.ModeRead? && device in e.devices) || e.Snapshot? }

  predicate FreshMode(before: seq<Entry>, e: Entry, device: Device, k: nat)
    requires e.Sent?
  {
    && k < |before| && (before[k].ModeRead? || before[k].Snapshot?)
    && LiveMode(Some(before[k]), device, before[k].at) && Fresh(before[k].at, e.checkedAt)
    && forall i :: k < i < |before| ==> !SetsMode(before[i], device)
  }

  lemma {:induction false} ControllerIndex(log: seq<Entry>) returns (k: nat)
    requires LastController(log).Some?
    ensures k < |log| && log[k] == LastController(log).value && forall i :: k < i < |log| ==> !SetsController(log[i])
    decreases |log|
  {
    if SetsController(log[|log| - 1]) {
      k := |log| - 1;
    } else {
      k := ControllerIndex(log[..|log| - 1]);
    }
  }

  lemma {:induction false} ModeIndex(log: seq<Entry>, device: Device) returns (k: nat)
    requires LastMode(log, device).Some?
    ensures k < |log| && log[k] == LastMode(log, device).value && forall i :: k < i < |log| ==> !SetsMode(log[i], device)
    decreases |log|
  {
    if SetsMode(log[|log| - 1], device) {
      k := |log| - 1;
    } else {
      k := ModeIndex(log[..|log| - 1], device);
    }
  }

  lemma Backed(ws: seq<World>, ts: seq<Option<Tid>>, i: nat, c: nat)
    requires IsRun(ws, ts) && i < |ws| && c < |ws[i].log| && ws[i].log[c].Sent?
    ensures SentBacked(ws[i].log[..c], ws[i].log[c])
  {
    hide Step, SentBacked;
    RunKeeps(ws, ts, i);
    assert Shared(ws[i]);
    assert EntryBacked(ws[i].log[..c], ws[i].log[c]);
  }

  // Each synchronous generic controller publish.
  lemma ControllerPublishFresh(ws: seq<World>, ts: seq<Option<Tid>>, i: nat, c: nat) returns (k: nat)
    requires IsRun(ws, ts) && i < |ws| && c < |ws[i].log| && ws[i].log[c].Sent? && ws[i].log[c].command.Generic?
    ensures FreshController(ws[i].log[..c], ws[i].log[c], k)
  {
    hide IsRun, LastController;
    Backed(ws, ts, i, c);
    k := ControllerIndex(ws[i].log[..c]);
  }

  // Each water publish over MQTT is backed by the newest Mode observation of that
  // device, and by a native reading that was not retained unless a hand-over back to
  // MQTT is unfinished.
  lemma WaterPublishFresh(ws: seq<World>, ts: seq<Option<Tid>>, i: nat, c: nat) returns (k: nat)
    requires IsRun(ws, ts) && i < |ws| && c < |ws[i].log| && ws[i].log[c].Sent? && ws[i].log[c].command.Water?
    ensures FreshMode(ws[i].log[..c], ws[i].log[c], ws[i].log[c].command.device, k)
    ensures !ws[i].log[c].phase.Disabling? ==> ws[i].log[..c][k].ModeRead?
    ensures ws[i].log[..c][k].ModeRead? ==> !ws[i].log[..c][k].retained
  {
    hide IsRun, LastMode;
    Backed(ws, ts, i, c);
    k := ModeIndex(ws[i].log[..c], ws[i].log[c].command.device);
  }

  // At the very step that publishes, mode is off and session and generation are the captured ones.
  lemma PublishFenced(ws: seq<World>, ts: seq<Option<Tid>>, i: nat, t: Tid)
    requires IsRun(ws, ts) && i < |ws| && ws[i].Pc(t).Run? && ws[i].Pc(t).step.Ready?
    ensures var pc := ws[i].Pc(t); Fenced(ws[i], pc.session, pc.generation)
  {
    hide Step;
    RunKeeps(ws, ts, i);
    InvFine(ws[i], t);
  }

  // A gateway snapshot is written only while the gateway client is live and gateway
  // mode is on, so none overwrites the state after the hand-over.
  lemma SnapshotsOnlyWhileLive(ws: seq<World>, ts: seq<Option<Tid>>, i: nat, t: Tid)
    requires IsRun(ws, ts) && i < |ws| && (ws[i].Pc(t).ApplyLocked? || ws[i].Pc(t).ApplyWaiting?)
    ensures ws[i].phase.Live? && ws[i].mode
  {
    hide Step;
    RunKeeps(ws, ts, i);
    InvFine(ws[i], t);
    SourcePhase(ws[i]);
  }
}
