// The unfinished hand-over: DisableGatewayMode leaves gateway mode before it
// clears the gateway's water observations (internal/mqtt/client.go:174-187).
module MqttHandover {
  import opened Wrappers
  import opened MqttMachine
  import opened MqttInvariant
  import opened MqttPreserve
  import opened MqttSteps
  import opened MqttTheorems

  ghost predicate Reachable(w: World) {
    exists ws: seq<World>, ts: seq<Option<Tid>> :: |ws| == |ts| + 1 && IsRun(ws, ts) && ws[|ts|] == w
  }

  lemma Extend(w: World, who: Option<Tid>, w': World)
    requires Reachable(w) && Step(w, who, w')
    ensures Reachable(w')
  {
    hide Step, Initial;
    var ws: seq<World>, ts: seq<Option<Tid>> :| |ws| == |ts| + 1 && IsRun(ws, ts) && ws[|ts|] == w;
    var vs, us := ws + [w'], ts + [who];
    forall i | 0 <= i < |us| ensures Step(vs[i], us[i], vs[i + 1]) {
      if i < |ts| {
        assert vs[i] == ws[i] && vs[i + 1] == ws[i + 1];
      }
    }
    assert vs[|us|] == w';
  }

  // ---- single steps ----

  function Go(w: World, t: Tid): World
    requires SourceMove(w.Pc(t)).Some?
  {
    SourceEffect(w, w.Pc(t)).Make(t, SourceMove(w.Pc(t)).value)
  }

  lemma Goes(w: World, t: Tid)
    requires Reachable(w) && SourceMove(w.Pc(t)).Some?
    requires Can(w.gw, SourceMove(w.Pc(t)).value.gw) && Can(w.st, SourceMove(w.Pc(t)).value.st)
    ensures Reachable(Go(w, t))
  {
    hide CallbackStep, CommandStep, BeginStep, WorldStep, SourceMove, SourceEffect, Reachable;
    assert SourceStep(w, t, Go(w, t));
    assert GoroutineStep(w, t, Go(w, t));
    Extend(w, Some(t), Go(w, t));
  }

  function Issue(w: World, t: Tid): World
    requires w.Pc(t).Run?
  {
    CommandEffect(w, t, w.Pc(t)).Make(t, CommandMove(w, w.Pc(t), true))
  }

  lemma Issues(w: World, t: Tid)
    requires Reachable(w) && w.Pc(t).Run?
    requires Can(w.gw, CommandMove(w, w.Pc(t), true).gw) && Can(w.st, CommandMove(w, w.Pc(t), true).st)
    ensures Reachable(Issue(w, t))
  {
    hide CallbackStep, SourceStep, BeginStep, WorldStep, CommandMove, CommandEffect, Reachable;
    assert CommandStep(w, t, Issue(w, t), true);
    assert GoroutineStep(w, t, Issue(w, t));
    Extend(w, Some(t), Issue(w, t));
  }

  lemma Begins(w: World, t: Tid, w': World)
    requires Reachable(w) && BeginStep(w, t, w')
    ensures Reachable(w')
  {
    hide CallbackStep, SourceStep, BeginStep, WorldStep, CommandStep, Reachable;
    assert GoroutineStep(w, t, w');
    Extend(w, Some(t), w');
  }

  lemma Occurs(w: World, c: Event)
    requires Reachable(w) && May(w, c)
    ensures Reachable(Happens(w, c))
  {
    hide May, Happens, Reachable;
    assert WorldStep(w, Happens(w, c));
    Extend(w, None, Happens(w, c));
  }

  // ---- the run ----

  ghost predicate Calm(w: World) {
    w.gw == UNLOCKED && w.st == UNLOCKED && !w.publisher && w.open && forall t :: w.Pc(t).Idle?
  }

  lemma SwitchSets(v: World, on: bool) returns (w: World)
    requires Reachable(v) && v.Pc(0) == SwitchLocked(on) && v.st == UNLOCKED
    ensures Reachable(w) && w == v.(mode := on, generation := v.generation + 1, connected := on && v.connected).At(0, SwitchSet(on))
  {
    hide Reachable, Step;
    Goes(v, 0);
    w := Go(v, 0);
  }

  lemma SwitchResets(v: World, on: bool) returns (w: World)
    requires Reachable(v) && v.Pc(0) == SwitchSet(on) && v.st == UNLOCKED
    ensures Reachable(w) && w == v.(data := v.data.(notes := Others(v.data.notes))).At(0, SwitchReset(on))
  {
    hide Reachable, Step;
    Goes(v, 0);
    w := Go(v, 0);
  }

  lemma SwitchReleases(v: World, on: bool) returns (w: World)
    requires Reachable(v) && v.Pc(0) == SwitchReset(on)
    ensures Reachable(w) && w == v.(gw := UNLOCKED).At(0, SwitchClear(on))
  {
    hide Reachable, Step;
    Goes(v, 0);
    w := Go(v, 0);
  }

  lemma SwitchClears(v: World, on: bool) returns (w: World)
    requires Reachable(v) && v.Pc(0) == SwitchClear(on) && v.st == UNLOCKED
    ensures Reachable(w) && w.phase == (if on then Enabled else Mqtt) && w.gw == v.gw && w.st == UNLOCKED && w.publisher == v.publisher && w.open == v.open && w.log == v.log
    ensures w.Pc(0).Idle? && forall t :: t != 0 ==> w.Pc(t) == v.Pc(t)
  {
    hide Reachable, Step;
    Goes(v, 0);
    var u := Go(v, 0);
    Goes(u, 0);
    w := Go(u, 0);
  }

  // From the start of a switch to the point where gatewayMu is free again.
  lemma Switches(v: World, on: bool) returns (w: World)
    requires Reachable(v) && v.Pc(0) == SwitchLocked(on) && v.st == UNLOCKED
    ensures Reachable(w) && w.Pc(0) == SwitchClear(on) && w.gw == UNLOCKED && w.st == UNLOCKED && w.mode == on && w.phase == v.phase
    ensures w.publisher == v.publisher && w.open == v.open && w.log == v.log && w.now == v.now
    ensures w.data.waterOn == v.data.waterOn && w.data.waterAt == v.data.waterAt
    ensures forall t :: t != 0 ==> w.Pc(t) == v.Pc(t)
  {
    hide Reachable;
    var a := SwitchSets(v, on);
    var b := SwitchResets(a, on);
    w := SwitchReleases(b, on);
  }

  lemma Start() returns (w: World)
    ensures Reachable(w) && Calm(w) && w.phase.Mqtt? && w.log == []
  {
    w := World(UNLOCKED, UNLOCKED, false, 0, 0, false, false, true, Mqtt, 0, Data(0, None, None, false, None, map[], {}, [], None), [], map[]);
    var nobody: seq<Option<Tid>> := [];
    assert IsRun([w], nobody) && [w][|nobody|] == w;
  }

  lemma SwitchBegins(v: World, on: bool) returns (w: World)
    requires Reachable(v) && Calm(v) && (if on then v.phase.Mqtt? else v.phase.Joined?)
    ensures Reachable(w) && w == v.(phase := if on then Enabling(0) else Disabling(0, |v.log|)).Make(0, Move(Take, Keep, SwitchLocked(on)))
  {
    hide Reachable;
    w := v.(phase := if on then Enabling(0) else Disabling(0, |v.log|)).Make(0, Move(Take, Keep, SwitchLocked(on)));
    assert BeginSource(v, 0, w);
    Begins(v, 0, w);
  }

  lemma GatewayEnabled() returns (w: World)
    ensures Reachable(w) && Calm(w) && w.phase.Enabled? && w.log == []
  {
    hide Reachable;
    var a := Start();
    var b := SwitchBegins(a, true);
    var c := Switches(b, true);
    w := SwitchClears(c, true);
    forall t ensures w.Pc(t).Idle? { assert a.Pc(t).Idle?; if t != 0 { assert b.Pc(t) == a.Pc(t); } }
  }

  // One gateway snapshot with the pump's Mode arrives at time 0, and the gateway is joined.
  lemma Applies(v: World, snap: GatewayState) returns (w: World)
    requires Reachable(v) && Calm(v) && v.phase.Live?
    ensures Reachable(w) && w == v.(st := Lock(Some(1), {})).At(1, ApplyLocked(snap))
  {
    var u := v.Make(1, Move(Keep, Keep, ApplyWaiting(snap)));
    assert BeginGateway(v, 1, u);
    Begins(v, 1, u);
    hide Reachable, Step;
    Goes(u, 1);
    w := Go(u, 1);
    assert w.threads == v.threads[1 := ApplyLocked(snap)];
  }

  lemma Applied(v: World, snap: GatewayState) returns (w: World)
    requires Reachable(v) && v.Pc(1) == ApplyLocked(snap)
    ensures Reachable(w) && w == v.(st := UNLOCKED, data := ApplySnapshot(v.data, snap, v.now), log := v.log + [Snapshot(snap, v.now)]).At(1, Idle)
  {
    hide Reachable, Step, ApplySnapshot;
    Goes(v, 1);
    var u := Go(v, 1);
    Goes(u, 1);
    w := Go(u, 1);
    assert w.threads == v.threads[1 := Idle];
  }

  lemma Snapshotting(v: World) returns (w: World)
    requires Reachable(v) && Calm(v) && v.phase.Enabled? && v.log == []
    ensures Reachable(w) && Calm(w) && w.phase.Joined? && w.data.waterOn == {Pump} && w.data.waterAt == map[Pump := w.now]
    ensures |w.log| == 1 && w.log[0].Snapshot?
  {
    hide Reachable;
    var snap := GatewayState(None, None, None, {Pump}, None);
    Occurs(v, GatewayStarts);
    var w0 := v.(phase := Live);
    forall t ensures w0.Pc(t).Idle? { assert v.Pc(t).Idle?; }
    var w1 := Applies(w0, snap);
    var w2 := Applied(w1, snap);
    forall t ensures w2.Pc(t).Idle? { assert v.Pc(t).Idle?; }
    IdleIsQuiet(w2);
    Occurs(w2, GatewayJoined);
    w := Happens(w2, GatewayJoined);
    forall t ensures w.Pc(t).Idle? { assert w2.Pc(t).Idle?; }
  }

  lemma IdleIsQuiet(w: World)
    requires forall t :: w.Pc(t).Idle?
    ensures Quiet(w)
  {
    forall u | u in w.threads ensures !GatewayPc(w.threads[u]) {
      assert w.Pc(u).Idle?;
    }
  }

  // DisableGatewayMode has released gatewayMu, and not yet cleared the observations.
  lemma Handing(v: World) returns (w: World)
    requires Reachable(v) && Calm(v) && v.phase.Joined?
    ensures Reachable(w) && w.phase.Disabling? && !w.mode && w.gw == UNLOCKED && w.st == UNLOCKED && !w.publisher && w.open
    ensures w.data.waterOn == v.data.waterOn && w.data.waterAt == v.data.waterAt && w.now == v.now && w.log == v.log
    ensures forall t :: t != 0 ==> w.Pc(t).Idle?
  {
    hide Reachable;
    var a := SwitchBegins(v, false);
    w := Switches(a, false);
    forall t | t != 0 ensures w.Pc(t).Idle? { assert v.Pc(t).Idle?; assert a.Pc(t) == v.Pc(t); }
  }

  lemma Captures(v: World) returns (w: World)
    requires Reachable(v) && v.Pc(2).Idle?
    ensures Reachable(w) && w == v.At(2, Run(Water(Pump), v.generation, v.session, 0, 0, 0, Captured))
  {
    var u := v.Make(2, Move(Keep, Keep, Run(Water(Pump), 0, 0, 0, 0, 0, Begin)));
    assert BeginWork(v, 2, u);
    Begins(v, 2, u);
    hide Reachable, Step;
    Issues(u, 2);
    var u2 := Issue(u, 2);
    Issues(u2, 2);
    w := Issue(u2, 2);
    assert w.threads == v.threads[2 := Run(Water(Pump), v.generation, v.session, 0, 0, 0, Captured)];
  }

  lemma Enters(v: World) returns (w: World)
    requires Reachable(v) && v.gw == UNLOCKED && !v.mode && !v.publisher && v.Pc(2) == Run(Water(Pump), v.generation, v.session, 0, 0, 0, Captured)
    ensures Reachable(w) && w == v.(gw := Lock(None, {2})).At(2, Run(Water(Pump), v.generation, v.session, 0, 0, 0, Sourced))
  {
    hide Reachable, Step, ReadyFor;
    Issues(v, 2);
    var u := Issue(v, 2);
    Issues(u, 2);
    w := Issue(u, 2);
    assert w.gw.readers == {2};
    assert w.threads == v.threads[2 := Run(Water(Pump), v.generation, v.session, 0, 0, 0, Sourced)];
  }

  lemma Checks(v: World) returns (w: World)
    requires Reachable(v) && v.st == UNLOCKED && v.open && v.Pc(2) == Run(Water(Pump), v.generation, v.session, 0, 0, 0, Sourced)
    requires v.data.waterOn == {Pump} && v.data.waterAt == map[Pump := v.now]
    ensures Reachable(w) && w == v.(st := Lock(None, {2})).At(2, Run(Water(Pump), v.generation, v.session, v.data.receipt, v.now, 0, Ready))
  {
    hide Reachable, Step;
    Issues(v, 2);
    var u := Issue(v, 2);
    Issues(u, 2);
    w := Issue(u, 2);
    assert w.st.readers == {2};
    assert w.threads == v.threads[2 := Run(Water(Pump), v.generation, v.session, v.data.receipt, v.now, 0, Ready)];
  }

  lemma Sends(v: World) returns (w: World)
    requires Reachable(v) && v.Pc(2) == Run(Water(Pump), v.generation, v.session, v.data.receipt, v.now, 0, Ready)
    ensures Reachable(w) && w.log == v.log + [Sent(Water(Pump), v.session, v.generation, v.now, v.data.receipt, v.phase, 2)]
  {
    hide Reachable, Step;
    Issues(v, 2);
    w := Issue(v, 2);
  }

  // A water command issued now is published on the strength of the gateway's reading.
  lemma Publishing(v: World) returns (w: World)
    requires Reachable(v) && v.phase.Disabling? && !v.mode && v.gw == UNLOCKED && v.st == UNLOCKED && !v.publisher && v.open
    requires v.data.waterOn == {Pump} && v.data.waterAt == map[Pump := v.now] && v.Pc(2).Idle?
    ensures Reachable(w) && w.log == v.log + [Sent(Water(Pump), v.session, v.generation, v.now, v.data.receipt, v.phase, 2)]
  {
    hide Reachable;
    var a := Captures(v);
    var b := Enters(a);
    var c := Checks(b);
    w := Sends(c);
  }

  // ---- when a water publish is backed by a native reading ----

  predicate NativelyBacked(log: seq<Entry>, c: nat)
    requires c < |log| && log[c].Sent? && log[c].command.Water?
  {
    LastMode(log[..c], log[c].command.device).Some? && LastMode(log[..c], log[c].command.device).value.ModeRead?
  }

  // A water publish over MQTT rests on a native Mode reading exactly when no hand-over
  // is unfinished, or a reading of that device was accepted since the hand-over began.
  lemma NativeBackingIff(ws: seq<World>, ts: seq<Option<Tid>>, i: nat, c: nat)
    requires IsRun(ws, ts) && i < |ws| && c < |ws[i].log| && ws[i].log[c].Sent? && ws[i].log[c].command.Water?
    ensures var e := ws[i].log[c];
      NativelyBacked(ws[i].log, c) <==> (e.phase.Disabling? ==> ReadFrom(ws[i].log[..c], e.phase.since, e.command.device))
  {
    hide IsRun, LastMode, ReadFrom;
    Backed(ws, ts, i, c);
  }

  // A run publishes in an unfinished hand-over on the gateway's reading alone.
  lemma GatewayBackedPublish() returns (w: World)
    ensures Reachable(w) && |w.log| == 2 && w.log[1].Sent? && w.log[1].command == Water(Pump) && w.log[1].phase.Disabling?
    ensures w.log[0].Snapshot? && !NativelyBacked(w.log, 1)
  {
    hide Reachable, NativelyBacked;
    var a := GatewayEnabled();
    var b := Snapshotting(a);
    var d := Handing(b);
    w := Publishing(d);
    NotNative(w);
  }

  lemma NotNative(w: World)
    requires |w.log| == 2 && w.log[0].Snapshot? && w.log[1].Sent? && w.log[1].command.Water?
    ensures !NativelyBacked(w.log, 1)
  {
    assert w.log[..1][0] == w.log[0];
  }
}
