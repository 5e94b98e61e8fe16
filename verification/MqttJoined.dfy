// The telemetry client and the gateway client in one machine: what the first assumes of
// the second, callbacks only while it lives and none after Stop, is derived here
// (internal/gateway/client.go:115-209, 376-389; main.go:233-288, 349-368).
module MqttJoined {
  import opened Wrappers
  import opened MqttMachine
  import MqttInvariant
  import MqttSteps
  import G = GatewayLife

  // Who calls back: the poll loop, or the goroutine of an override acknowledgement.
  datatype Agent = Loop | Ack(t: nat)

  // `hosts` names the goroutine of the telemetry client that runs an agent's latest callback.
  datatype Joint = Joint(g: G.World, m: World, created: bool, hosts: map<Agent, Tid>)

  datatype Act =
    | Client(who: Option<Tid>)
    // The gateway client is made once gateway mode is on.
    | Create
    | Call(agent: Agent, u: Tid)
    | Life(step: G.Act)

  predicate InCallback(g: G.World, agent: Agent) {
    match agent
    case Loop => g.loop.Reporting? || g.loop.Applying?
    case Ack(t) => t in g.threads && g.threads[t].Overriding?
  }

  predicate Returned(j: Joint, agent: Agent) { agent in j.hosts ==> !GatewayPc(j.m.Pc(j.hosts[agent])) }

  // A step of the telemetry client that is neither a gateway callback's beginning nor the
  // gateway client's birth or end.
  ghost predicate ClientStep(m: World, who: Option<Tid>, m': World) {
    match who
    case Some(t) => GoroutineStep(m, t, m') && (m.Pc(t).Idle? ==> !GatewayPc(m'.Pc(t)))
    case None => exists c: Event :: May(m, c) && !c.GatewayStarts? && !c.GatewayJoined? && m' == Happens(m, c)
  }

  // Stop has returned, and its caller goes on with the hand-over.
  predicate HandsOver(g: G.World, a: G.Act) { a.Move? && g.Pc(a.t).Stopped? }

  // No guard here asks whether the gateway client lives or is quiet: an agent calls
  // whenever it stands at a call, and leaves the call when it has returned.
  ghost predicate Step(j: Joint, a: Act, j': Joint) {
    match a
    case Client(who) => j' == j.(m := j'.m) && ClientStep(j.m, who, j'.m)
    case Create => !j.created && j.m.phase.Enabled? && j' == j.(created := true, m := Happens(j.m, GatewayStarts))
    case Call(agent, u) =>
      && InCallback(j.g, agent) && Returned(j, agent) && j.m.Pc(u).Idle? && GatewayCall(j.m, u, j'.m)
      && j' == j.(m := j'.m, hosts := j.hosts[agent := u])
    case Life(b) =>
      && j.created && G.Can(j.g, b)
      && (forall agent :: InCallback(j.g, agent) && !InCallback(G.Do(j.g, b), agent) ==> Returned(j, agent))
      && j' == j.(g := G.Do(j.g, b), m := if HandsOver(j.g, b) && j.m.phase.Live? then Happens(j.m, GatewayJoined) else j.m)
  }

  predicate Initial(j: Joint) {
    G.Initial(j.g) && MqttMachine.Initial(j.m) && !j.created && j.hosts == map[]
  }

  // ---- the invariant ----

  ghost predicate SomeDrained(g: G.World) { exists t :: t in g.threads && G.Drained(g.threads[t]) }

  ghost predicate Hosted(j: Joint, u: Tid) { exists a :: a in j.hosts && j.hosts[a] == u && InCallback(j.g, a) }

  ghost predicate Coupled(j: Joint) {
    && (!j.created ==> G.Initial(j.g))
    && (j.created && !j.m.phase.Live? ==> SomeDrained(j.g))
    && (forall u :: GatewayPc(j.m.Pc(u)) ==> Hosted(j, u))
  }

  ghost predicate Inv(j: Joint) { MqttInvariant.Inv(j.m) && G.Inv(j.g) && Coupled(j) }

  lemma DrainedCallsNobody(g: G.World, agent: Agent)
    requires G.Inv(g) && SomeDrained(g)
    ensures !InCallback(g, agent)
  {
    hide G.Inv;
    var t :| t in g.threads && G.Drained(g.threads[t]);
    G.DrainedIsQuiet(g, t);
  }

  // A call comes only while the machine's phase says so.
  lemma CallingIsLive(j: Joint, agent: Agent)
    requires Inv(j) && InCallback(j.g, agent)
    ensures j.m.phase.Live?
  {
    hide G.Inv, MqttInvariant.Inv;
    if SomeDrained(j.g) {
      DrainedCallsNobody(j.g, agent);
    }
  }

  // Once a Stop has returned the telemetry client runs no gateway callback.
  lemma DrainedIsQuiet(j: Joint)
    requires Inv(j) && SomeDrained(j.g)
    ensures Quiet(j.m) && forall u :: !GatewayPc(j.m.Pc(u))
  {
    hide G.Inv, MqttInvariant.Inv;
    forall u ensures !GatewayPc(j.m.Pc(u)) {
      if GatewayPc(j.m.Pc(u)) {
        assert Hosted(j, u);
        var a :| a in j.hosts && j.hosts[a] == u && InCallback(j.g, a);
        DrainedCallsNobody(j.g, a);
      }
    }
    forall u | u in j.m.threads ensures !GatewayPc(j.m.threads[u]) {
      assert !GatewayPc(j.m.Pc(u));
    }
  }

  lemma StoppedIsDrained(g: G.World, b: G.Act)
    requires HandsOver(g, b)
    ensures SomeDrained(g) && SomeDrained(G.Do(g, b))
  {
    assert b.t in g.threads && G.Drained(g.threads[b.t]);
    assert G.Drained(G.Do(g, b).threads[b.t]);
  }

  // Every step of the whole is a step of the telemetry client's machine, or leaves it alone.
  lemma Projects(j: Joint, a: Act, j': Joint) returns (who: Option<Tid>)
    requires Inv(j) && Step(j, a, j')
    ensures j'.m == j.m || MqttMachine.Step(j.m, who, j'.m)
  {
    hide G.Inv, MqttInvariant.Inv, Coupled, G.Can, G.Do, GatewayCall, CallbackStep, SourceStep, CommandStep, BeginWork, BeginSource, Happens;
    who := None;
    match a
    case Client(w) =>
      who := w;
      if w.None? {
        var c: Event :| May(j.m, c) && !c.GatewayStarts? && !c.GatewayJoined? && j'.m == Happens(j.m, c);
        assert WorldStep(j.m, j'.m);
      }
    case Create =>
      assert May(j.m, GatewayStarts);
      assert WorldStep(j.m, j'.m);
    case Call(agent, u) =>
      who := Some(u);
      CallingIsLive(j, agent);
      assert BeginStep(j.m, u, j'.m);
      assert GoroutineStep(j.m, u, j'.m);
    case Life(b) =>
      if HandsOver(j.g, b) && j.m.phase.Live? {
        StoppedIsDrained(j.g, b);
        DrainedIsQuiet(j);
        assert May(j.m, GatewayJoined);
        assert WorldStep(j.m, j'.m);
      }
  }

  // ---- the coupling is kept ----

  lemma PhaseAt(m: World, t: Tid)
    requires MqttInvariant.Inv(m)
    ensures m.Pc(t).SwitchClearing? ==> m.phase.Enabling? || m.phase.Disabling?
  {
    MqttSteps.InvFine(m, t);
    hide MqttInvariant.Inv, MqttInvariant.Member;
  }

  // A goroutine's step moves that goroutine alone, leaves a live phase, and makes a
  // gateway callback only of an idle goroutine or of another step of one.
  ghost predicate Shaped(m: World, t: Tid, m': World) {
    && (forall u :: u != t ==> m'.Pc(u) == m.Pc(u))
    && (m.phase.Live? && !m.Pc(t).SwitchClearing? ==> m'.phase.Live?)
    && (GatewayPc(m'.Pc(t)) ==> GatewayPc(m.Pc(t)) || m.Pc(t).Idle?)
  }

  lemma MadeShaped(m: World, x: World, t: Tid, v: Move)
    requires x.threads == m.threads && (m.phase.Live? && !m.Pc(t).SwitchClearing? ==> x.phase.Live?)
    requires GatewayPc(v.pc) ==> GatewayPc(m.Pc(t)) || m.Pc(t).Idle?
    ensures Shaped(m, t, x.Make(t, v))
  {
    hide GatewayPc;
  }

  lemma CallbackShaped(m: World, t: Tid, m': World, again: bool)
    requires CallbackStep(m, t, m', again)
    ensures Shaped(m, t, m')
  {
    var v := CallbackMove(m, m.Pc(t), again);
    assert !GatewayPc(v.pc);
    hide CallbackMove, Shaped, GatewayPc;
    if Applying(m.Pc(t)) {
      MqttSteps.EffectControl(m, t);
      hide CallbackWrite;
      MadeShaped(m, MqttSteps.Effect(m, t), t, v);
    } else {
      MadeShaped(m, m, t, v);
    }
  }

  lemma SourceShaped(m: World, t: Tid, m': World)
    requires SourceStep(m, t, m')
    ensures Shaped(m, t, m')
  {
    MqttSteps.SourceFits(m, t);
    SourcePhase(m, m.Pc(t));
    SourceStays(m.Pc(t));
    hide SourceMove, SourceEffect, Shaped, GatewayPc, Can;
    MadeShaped(m, SourceEffect(m, m.Pc(t)), t, SourceMove(m.Pc(t)).value);
  }

  lemma SourcePhase(m: World, pc: Pc)
    ensures !pc.SwitchClearing? ==> SourceEffect(m, pc).phase == m.phase
  {
    hide ApplySnapshot, ClearController, Others;
  }

  lemma SourceStays(pc: Pc)
    requires SourceMove(pc).Some?
    ensures GatewayPc(SourceMove(pc).value.pc) ==> GatewayPc(pc)
  {
  }

  lemma CommandShaped(m: World, t: Tid, m': World, go: bool)
    requires CommandStep(m, t, m', go)
    ensures Shaped(m, t, m')
  {
    MqttSteps.EffectSameControl(m, t);
    CommandPhase(m, t);
    CommandStays(m, t, go);
    hide CommandMove, CommandEffect, Shaped, GatewayPc, Can;
    MadeShaped(m, CommandEffect(m, t, m.Pc(t)), t, CommandMove(m, m.Pc(t), go));
  }

  lemma CommandPhase(m: World, t: Tid)
    requires m.Pc(t).Run?
    ensures CommandEffect(m, t, m.Pc(t)).phase == m.phase
  {
    hide Acknowledged;
  }

  lemma CommandStays(m: World, t: Tid, go: bool)
    requires m.Pc(t).Run?
    ensures !GatewayPc(CommandMove(m, m.Pc(t), go).pc)
  {
    hide Acknowledged, ReadyFor;
  }

  lemma MadeAlone(x: World, t: Tid, v: Move)
    ensures var w := x.Make(t, v); w.log == x.log && w.phase == x.phase && w.Pc(t) == v.pc && forall u :: u != t ==> w.Pc(u) == x.Pc(u)
  {
  }

  // What every beginning leaves alone.
  ghost predicate Beginning(m: World, t: Tid, m': World) {
    m'.log == m.log && (forall u :: u != t ==> m'.Pc(u) == m.Pc(u)) && (m.phase.Live? ==> m'.phase.Live?)
  }

  lemma WorkBegins(m: World, t: Tid, m': World)
    requires BeginWork(m, t, m')
    ensures Beginning(m, t, m')
  {
    if work: seq<Work>, s: nat :| s <= m.session && m' == m.Make(t, Move(Keep, Keep, Callback(work, s, 0, Bound))) {
      MadeAlone(m, t, Move(Keep, Keep, Callback(work, s, 0, Bound)));
    } else {
      var command: Command :| m' == m.Make(t, Move(Keep, Keep, Run(command, 0, 0, 0, 0, 0, Begin)));
      MadeAlone(m, t, Move(Keep, Keep, Run(command, 0, 0, 0, 0, 0, Begin)));
    }
  }

  lemma CallBegins(m: World, t: Tid, m': World)
    requires GatewayCall(m, t, m')
    ensures Beginning(m, t, m') && m'.phase == m.phase
  {
    if snap: GatewayState :| m' == m.Make(t, Move(Keep, Keep, ApplyWaiting(snap))) {
      MadeAlone(m, t, Move(Keep, Keep, ApplyWaiting(snap)));
    } else {
      MadeAlone(m.(connected := !m.connected), t, Move(Touch, Keep, StatusBump(!m.connected)));
    }
  }

  lemma SourceBegins(m: World, t: Tid, m': World)
    requires BeginSource(m, t, m')
    ensures Beginning(m, t, m')
  {
    MadeAlone(m, t, Move(Take, Keep, AdvanceLocked));
    MadeAlone(m.(phase := Enabling(t)), t, Move(Take, Keep, SwitchLocked(true)));
    MadeAlone(m.(phase := Disabling(t, |m.log|)), t, Move(Take, Keep, SwitchLocked(false)));
  }

  lemma Begins(m: World, t: Tid, m': World)
    requires BeginStep(m, t, m')
    ensures Beginning(m, t, m')
  {
    hide BeginWork, GatewayCall, BeginSource, Beginning;
    if BeginWork(m, t, m') {
      WorkBegins(m, t, m');
    } else if BeginGateway(m, t, m') {
      CallBegins(m, t, m');
    } else {
      SourceBegins(m, t, m');
    }
  }

  lemma BeginShaped(m: World, t: Tid, m': World)
    requires BeginStep(m, t, m')
    ensures Shaped(m, t, m')
  {
    Begins(m, t, m');
    hide GatewayPc, BeginWork, BeginGateway, BeginSource;
  }

  lemma StepShaped(m: World, t: Tid, m': World)
    requires GoroutineStep(m, t, m')
    ensures Shaped(m, t, m')
  {
    hide CallbackStep, SourceStep, CommandStep, BeginStep, Shaped;
    if CallbackStep(m, t, m', false) {
      CallbackShaped(m, t, m', false);
    } else if CallbackStep(m, t, m', true) {
      CallbackShaped(m, t, m', true);
    } else if SourceStep(m, t, m') {
      SourceShaped(m, t, m');
    } else if CommandStep(m, t, m', false) {
      CommandShaped(m, t, m', false);
    } else if CommandStep(m, t, m', true) {
      CommandShaped(m, t, m', true);
    } else {
      BeginShaped(m, t, m');
    }
  }

  lemma ClientKeeps(m: World, who: Option<Tid>, m': World)
    requires MqttInvariant.Inv(m) && ClientStep(m, who, m')
    ensures m.phase.Live? ==> m'.phase.Live?
    ensures forall u :: GatewayPc(m'.Pc(u)) ==> GatewayPc(m.Pc(u))
  {
    hide MqttInvariant.Inv, GoroutineStep, May;
    match who
    case Some(t) =>
      PhaseAt(m, t);
      StepShaped(m, t, m');
    case None =>
      var c: Event :| May(m, c) && !c.GatewayStarts? && !c.GatewayJoined? && m' == Happens(m, c);
      MqttSteps.WorldControl(m, c);
  }

  lemma ClientCoupled(j: Joint, who: Option<Tid>, m': World)
    requires Inv(j) && ClientStep(j.m, who, m')
    ensures Coupled(j.(m := m'))
  {
    ClientKeeps(j.m, who, m');
    hide G.Inv, MqttInvariant.Inv, ClientStep, InCallback;
    var j' := j.(m := m');
    forall u | GatewayPc(j'.m.Pc(u)) ensures Hosted(j', u) {
      assert Hosted(j, u);
    }
  }

  lemma CallCoupled(j: Joint, agent: Agent, u: Tid, m': World)
    requires Inv(j) && InCallback(j.g, agent) && Returned(j, agent) && j.m.Pc(u).Idle? && GatewayCall(j.m, u, m')
    ensures Coupled(j.(m := m', hosts := j.hosts[agent := u]))
  {
    CallingIsLive(j, agent);
    hide G.Inv, MqttInvariant.Inv, InCallback;
    var j' := j.(m := m', hosts := j.hosts[agent := u]);
    CallBegins(j.m, u, m');
    hide GatewayCall;
    forall v | GatewayPc(m'.Pc(v)) ensures Hosted(j', v) {
      if v == u {
        assert agent in j'.hosts && j'.hosts[agent] == u;
      } else {
        assert Hosted(j, v);
        var a :| a in j.hosts && j.hosts[a] == v && InCallback(j.g, a);
        assert a != agent && a in j'.hosts && j'.hosts[a] == v;
      }
    }
  }

  lemma LifeCoupled(j: Joint, b: G.Act, j': Joint)
    requires Inv(j) && Step(j, Life(b), j')
    ensures Coupled(j')
  {
    hide G.Inv, MqttInvariant.Inv, InCallback, G.Can, G.Do;
    assert j'.m.threads == j.m.threads;
    forall u | GatewayPc(j'.m.Pc(u)) ensures Hosted(j', u) {
      assert Hosted(j, u);
      var a :| a in j.hosts && j.hosts[a] == u && InCallback(j.g, a);
      assert InCallback(j'.g, a);
    }
    if SomeDrained(j.g) {
      var t :| t in j.g.threads && G.Drained(j.g.threads[t]);
      G.DrainedStays(j.g, b, t);
    } else if HandsOver(j.g, b) {
      StoppedIsDrained(j.g, b);
    }
  }

  lemma StepKept(j: Joint, a: Act, j': Joint)
    requires Inv(j) && Step(j, a, j')
    ensures Inv(j')
  {
    var who := Projects(j, a, j');
    hide G.Inv, MqttInvariant.Inv, Coupled, MqttMachine.Step, G.Can, G.Do, ClientStep, GatewayCall, InCallback;
    if j'.m != j.m {
      MqttSteps.StepKept(j.m, who, j'.m);
    }
    match a
    case Client(w) => ClientCoupled(j, w, j'.m);
    case Create => CreateCoupled(j);
    case Call(agent, u) => CallCoupled(j, agent, u, j'.m);
    case Life(b) =>
      LifeCoupled(j, b, j');
      G.StepKept(j.g, b);
  }

  lemma CreateCoupled(j: Joint)
    requires Inv(j) && !j.created
    ensures Coupled(j.(created := true, m := Happens(j.m, GatewayStarts)))
  {
    hide G.Inv, MqttInvariant.Inv, InCallback, G.Initial;
    var j' := j.(created := true, m := Happens(j.m, GatewayStarts));
    forall u | GatewayPc(j'.m.Pc(u)) ensures Hosted(j', u) {
      assert Hosted(j, u);
    }
  }

  // ---- runs ----

  ghost predicate IsRun(js: seq<Joint>, acts: seq<Act>) {
    && |js| == |acts| + 1 && Initial(js[0])
    && forall i :: 0 <= i < |acts| ==> Step(js[i], acts[i], js[i + 1])
  }

  lemma InitialInv(j: Joint)
    requires Initial(j)
    ensures Inv(j)
  {
    MqttSteps.InitialInv(j.m);
  }

  lemma {:induction false} RunKeeps(js: seq<Joint>, acts: seq<Act>, i: nat)
    requires IsRun(js, acts) && i < |js|
    ensures Inv(js[i])
  {
    hide Inv, Step, Initial;
    if i == 0 {
      InitialInv(js[0]);
    } else {
      RunKeeps(js, acts, i - 1);
      StepKept(js[i - 1], acts[i - 1], js[i]);
    }
  }

  lemma {:induction false} DrainedForever(js: seq<Joint>, acts: seq<Act>, i: nat, k: nat)
    requires IsRun(js, acts) && i <= k < |js| && SomeDrained(js[i].g)
    ensures SomeDrained(js[k].g)
    decreases k - i
  {
    if i < k {
      hide Initial, G.Can, G.Do, ClientStep, GatewayCall, InCallback;
      DrainedForever(js, acts, i, k - 1);
      assert Step(js[k - 1], acts[k - 1], js[k]);
      if acts[k - 1].Life? {
        var t :| t in js[k - 1].g.threads && G.Drained(js[k - 1].g.threads[t]);
        G.DrainedStays(js[k - 1].g, acts[k - 1].step, t);
      }
    }
  }

  // After any Stop has returned, the telemetry client is in no gateway callback, and in
  // none ever again.
  lemma StoppedForGood(js: seq<Joint>, acts: seq<Act>, i: nat, k: nat, t: nat, u: Tid)
    requires IsRun(js, acts) && i <= k < |js| && t in js[i].g.threads && js[i].g.threads[t].Stopped?
    ensures !GatewayPc(js[k].m.Pc(u))
  {
    hide Step, Inv;
    assert G.Drained(js[i].g.threads[t]);
    DrainedForever(js, acts, i, k);
    RunKeeps(js, acts, k);
    DrainedIsQuiet(js[k]);
  }

  lemma StoppedIsQuiet(js: seq<Joint>, acts: seq<Act>, i: nat, k: nat, t: nat)
    requires IsRun(js, acts) && i <= k < |js| && t in js[i].g.threads && js[i].g.threads[t].Stopped?
    ensures var m := js[k].m; forall u :: !GatewayPc(m.Pc(u))
  {
    hide IsRun;
    var m := js[k].m;
    forall u ensures !GatewayPc(m.Pc(u)) {
      StoppedForGood(js, acts, i, k, t, u);
    }
  }

  // Whenever the telemetry client is in a gateway callback, gateway mode is on, the
  // gateway client is at that call, and no Stop has returned.
  lemma CallbacksOnlyWhileLive(js: seq<Joint>, acts: seq<Act>, i: nat, u: Tid)
    requires IsRun(js, acts) && i < |js| && GatewayPc(js[i].m.Pc(u))
    ensures js[i].m.phase.Live? && js[i].m.mode && Hosted(js[i], u)
    ensures forall t :: t in js[i].g.threads ==> !js[i].g.threads[t].Stopped?
  {
    RunKeeps(js, acts, i);
    hide IsRun, Step;
    var j := js[i];
    assert Hosted(j, u);
    var a :| a in j.hosts && j.hosts[a] == u && InCallback(j.g, a);
    CallingIsLive(j, a);
    MqttSteps.SourcePhase(j.m);
    forall t | t in j.g.threads ensures !j.g.threads[t].Stopped? {
      if j.g.threads[t].Stopped? {
        assert G.Drained(j.g.threads[t]);
        DrainedCallsNobody(j.g, a);
      }
    }
  }

  // From `before` on the log was only appended to, and by no gateway snapshot.
  ghost predicate NoSnapshotSince(before: seq<Entry>, log: seq<Entry>) {
    before <= log && forall x :: |before| <= x < |log| ==> !log[x].Snapshot?
  }

  ghost predicate Adds(log: seq<Entry>, log': seq<Entry>) {
    log' == log || (|log'| == |log| + 1 && log <= log' && !log'[|log|].Snapshot?)
  }

  // So no gateway snapshot is applied from then on, whatever else happens.
  lemma {:induction false} NoSnapshotAfterStop(js: seq<Joint>, acts: seq<Act>, i: nat, k: nat, t: nat)
    requires IsRun(js, acts) && i <= k < |js| && t in js[i].g.threads && js[i].g.threads[t].Stopped?
    ensures NoSnapshotSince(js[i].m.log, js[k].m.log)
    decreases k - i
  {
    hide Step, Initial;
    if i < k {
      NoSnapshotAfterStop(js, acts, i, k - 1, t);
      RunKeeps(js, acts, k - 1);
      StoppedIsQuiet(js, acts, i, k - 1, t);
      hide Inv;
      StepAdds(js[k - 1], acts[k - 1], js[k]);
    }
  }

  lemma StepAdds(j: Joint, a: Act, j': Joint)
    requires Inv(j) && Step(j, a, j') && forall u :: !GatewayPc(j.m.Pc(u))
    ensures Adds(j.m.log, j'.m.log)
  {
    hide Inv, Step, MqttMachine.Step, GatewayPc, Adds;
    var who := Projects(j, a, j');
    if j'.m == j.m {
      AddsNothing(j.m.log);
    } else {
      QuietLog(j.m, who, j'.m);
    }
  }

  lemma AddsNothing(log: seq<Entry>)
    ensures Adds(log, log)
  {
  }

  lemma QuietLog(m: World, who: Option<Tid>, m': World)
    requires MqttMachine.Step(m, who, m') && forall u :: !GatewayPc(m.Pc(u))
    ensures Adds(m.log, m'.log)
  {
    match who
    case Some(t) =>
      hide CallbackMove, CommandMove, SourceMove, WorldStep;
      GoroutineLog(m, t, m');
    case None =>
      hide May;
      var c: Event :| May(m, c) && m' == Happens(m, c);
      MqttSteps.WorldControl(m, c);
  }

  lemma GoroutineLog(m: World, t: Tid, m': World)
    requires GoroutineStep(m, t, m') && !GatewayPc(m.Pc(t))
    ensures Adds(m.log, m'.log)
  {
    hide CallbackMove, CommandMove, SourceMove, CallbackWrite, SourceEffect, CommandEffect, BeginStep, Can;
    if BeginStep(m, t, m') {
      Begins(m, t, m');
    } else if SourceStep(m, t, m') {
      SourceLog(m, m.Pc(t));
    } else if m.Pc(t).Callback? {
      if Applying(m.Pc(t)) { CallbackLog(m, t); }
    } else {
      CommandLog(m, t);
    }
  }

  lemma SourceLog(m: World, pc: Pc)
    requires !GatewayPc(pc)
    ensures SourceEffect(m, pc).log == m.log
  {
    hide ClearController, Others;
  }

  lemma CommandLog(m: World, t: Tid)
    requires m.Pc(t).Run?
    ensures var x := CommandEffect(m, t, m.Pc(t)); x.log == m.log || exists e :: x.log == m.log + [e] && !e.Snapshot?
  {
    hide Acknowledged;
  }

  lemma CallbackLog(m: World, t: Tid)
    requires Applying(m.Pc(t))
    ensures var x := MqttSteps.Effect(m, t); x.log == m.log || exists e :: x.log == m.log + [e] && !e.Snapshot?
  {
    hide ApplyLiveness, ApplyAnswer, ApplyNotes, ApplyLeaf, LiveModes;
  }
}
