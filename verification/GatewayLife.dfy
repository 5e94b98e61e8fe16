// The gateway client's lifetime: poll loop, override acknowledgements, Start, Stop
// and the hand-over that relies on Stop (internal/gateway/client.go:115-209,
// 376-389; main.go:349-368).
module GatewayLife {
  import opened Wrappers

  // pollLoop and the pollOnce it runs; Reporting and Applying are calls of onStatus and apply.
  datatype Loop =
    | NotStarted
    | Polling
    | Fetching
    | Fetched(success: bool)
    | Reporting(success: bool)
    | Reported(success: bool)
    | Cleared
    | Applying
    | Selecting
    | Exited

  datatype Pc =
    | Idle
    // Stop: waiting for done, then for commandApplyMu.
    | StopWaiting | StopJoining | StopHolding | Stopped
    // What mqttRecoveryProbe does after its Stop.
    | Unpublished | HandedOver
    // applyOverride
    | Acknowledged | Holding | Allowed | Overriding | Finished

  datatype World = World(
    started: bool, stopped: bool, cancelled: bool, closes: nat, loop: Loop,
    commandMu: Option<nat>, threads: map<nat, Pc>, gatewayMode: bool, publisher: bool)
  {
    function Pc(t: nat): Pc { if t in threads then threads[t] else Idle }

    function At(t: nat, pc: Pc): World { this.(threads := threads[t := pc]) }
  }

  datatype Act =
    | Start
    | Stop(t: nat)
    | Acknowledge(t: nat)
    | Move(t: nat)
    // The command's own deadline has passed when applyOverride looks at it.
    | Expire(t: nat)
    // The poll loop; `choice` is the outcome of the fetch, or whether the select
    // takes the end of the context when both it and a tick are ready.
    | Poll(choice: bool)

  predicate Can(w: World, a: Act) {
    match a
    case Start => true
    case Stop(t) => w.Pc(t).Idle?
    case Acknowledge(t) => w.Pc(t).Idle?
    case Move(t) =>
      (match w.Pc(t)
       case StopWaiting => w.closes > 0
       case StopJoining => w.commandMu.None?
       case Acknowledged => w.commandMu.None?
       case Idle => false
       case HandedOver => false
       case Finished => false
       case _ => true)
    case Expire(t) => w.Pc(t).Holding?
    case Poll(choice) => !w.loop.NotStarted? && !w.loop.Exited? && (w.loop.Selecting? && choice ==> w.cancelled)
  }

  // Start and the first section of Stop run under lifecycleMu.
  function StartSection(w: World): World {
    if w.started || w.stopped then w else w.(started := true, loop := Polling)
  }

  function StopSection(w: World, t: nat): World {
    var x := if w.stopped then w
             else w.(stopped := true, cancelled := true, closes := if w.started then w.closes else w.closes + 1);
    x.At(t, StopWaiting)
  }

  function Step(w: World, t: nat): World {
    match w.Pc(t)
    case StopWaiting => w.At(t, StopJoining)
    case StopJoining => w.(commandMu := Some(t)).At(t, StopHolding)
    case StopHolding => w.(commandMu := None).At(t, Stopped)
    case Stopped => w.(publisher := false).At(t, Unpublished)
    case Unpublished => w.(gatewayMode := false).At(t, HandedOver)
    case Acknowledged => w.(commandMu := Some(t)).At(t, Holding)
    case Holding => if w.cancelled then w.(commandMu := None).At(t, Finished) else w.At(t, Allowed)
    case Allowed => w.At(t, Overriding)
    case Overriding => w.(commandMu := None).At(t, Finished)
    case _ => w
  }

  function PollStep(w: World, choice: bool): World {
    match w.loop
    case Polling => w.(loop := if w.cancelled then Selecting else Fetching)
    case Fetching => w.(loop := Fetched(choice))
    case Fetched(success) => w.(loop := if w.cancelled then Selecting else Reporting(success))
    case Reporting(success) => w.(loop := Reported(success))
    case Reported(success) => w.(loop := if success && !w.cancelled then Cleared else Selecting)
    case Cleared => w.(loop := Applying)
    case Applying => w.(loop := Selecting)
    case Selecting => if choice then w.(loop := Exited, closes := w.closes + 1) else w.(loop := Polling)
    case _ => w
  }

  function Do(w: World, a: Act): World {
    match a
    case Start => StartSection(w)
    case Stop(t) => StopSection(w, t)
    case Acknowledge(t) => w.At(t, Acknowledged)
    case Move(t) => Step(w, t)
    case Expire(t) => w.(commandMu := None).At(t, Finished)
    case Poll(choice) => PollStep(w, choice)
  }

  predicate Initial(w: World) {
    w == World(false, false, false, 0, NotStarted, None, map[], true, true)
  }

  // ---- the invariant ----

  // A gateway callback runs, or nothing more can keep it from running.
  predicate Calling(w: World) {
    || w.loop.Reporting? || w.loop.Cleared? || w.loop.Applying?
    || exists t :: t in w.threads && (w.threads[t].Allowed? || w.threads[t].Overriding?)
  }

  predicate HoldsMu(pc: Pc) { pc.StopHolding? || pc.Holding? || pc.Allowed? || pc.Overriding? }

  predicate Joined(pc: Pc) { pc.StopJoining? || pc.StopHolding? || pc.Stopped? || pc.Unpublished? || pc.HandedOver? }

  // Past the wait for commandApplyMu: no acknowledgement is inside, and none can pass its check.
  predicate Drained(pc: Pc) { pc.StopHolding? || pc.Stopped? || pc.Unpublished? || pc.HandedOver? }

  predicate Stopping(pc: Pc) { pc.StopWaiting? || Joined(pc) }

  ghost predicate Inv(w: World) {
    && (w.started <==> !w.loop.NotStarted?)
    && (w.stopped <==> w.cancelled)
    && w.closes == (if w.loop.Exited? then 1 else 0) + (if w.stopped && !w.started then 1 else 0)
    && (w.loop.Exited? ==> w.cancelled)
    && (forall t :: t in w.threads ==> (w.commandMu == Some(t) <==> HoldsMu(w.threads[t])))
    && (w.commandMu.Some? ==> w.commandMu.value in w.threads)
    && (forall t :: t in w.threads && Stopping(w.threads[t]) ==> w.cancelled)
    && (forall t :: t in w.threads && Joined(w.threads[t]) ==> w.closes == 1)
    && (forall s, t :: s in w.threads && t in w.threads && Drained(w.threads[s]) ==> !w.threads[t].Allowed? && !w.threads[t].Overriding?)
    && (!w.gatewayMode || !w.publisher ==> exists t :: t in w.threads && Drained(w.threads[t]))
  }

  lemma StepKept(w: World, a: Act)
    requires Inv(w) && Can(w, a)
    ensures Inv(Do(w, a))
  {
    match a
    case Start => StartKept(w);
    case Stop(t) => StopKept(w, t);
    case Acknowledge(t) => Moved(w, t, Acknowledged);
    case Move(t) => MoveKept(w, t);
    case Expire(t) => StoppingKnows(w, t); Locked(w, t, Finished, None);
    case Poll(choice) =>
  }

  lemma StartKept(w: World)
    requires Inv(w)
    ensures Inv(StartSection(w))
  {
  }

  lemma StopKept(w: World, t: nat)
    requires Inv(w) && w.Pc(t).Idle?
    ensures Inv(StopSection(w, t))
  {
    var x := StopSection(w, t).(threads := w.threads);
    assert Inv(x);
    Moved(x, t, StopWaiting);
  }

  // A goroutine that holds nothing moves to where it holds nothing and has drained nothing.
  lemma Moved(w: World, t: nat, pc: Pc)
    requires Inv(w) && !HoldsMu(w.Pc(t)) && !HoldsMu(pc) && !Drained(w.Pc(t)) && !Drained(pc)
    requires (Stopping(pc) ==> w.cancelled) && (Joined(pc) ==> w.closes == 1)
    ensures Inv(w.At(t, pc))
  {
    var w' := w.At(t, pc);
    assert forall u :: u in w'.threads && u != t ==> w'.threads[u] == w.threads[u];
    if !w.gatewayMode || !w.publisher {
      var u :| u in w.threads && Drained(w.threads[u]);
      assert u != t && w'.threads[u] == w.threads[u];
    }
  }

  // Taking commandApplyMu, keeping it, or giving it back.
  lemma Locked(w: World, t: nat, pc: Pc, mu: Option<nat>)
    requires Inv(w) && mu == (if HoldsMu(pc) then Some(t) else None)
    requires if HoldsMu(w.Pc(t)) then true else w.commandMu.None?
    requires (Stopping(pc) ==> w.cancelled) && (Joined(pc) ==> w.closes == 1) && (Drained(w.Pc(t)) ==> Drained(pc))
    requires pc.Allowed? ==> !w.cancelled
    requires pc.Overriding? ==> w.Pc(t).Allowed?
    ensures Inv(w.(commandMu := mu).At(t, pc))
  {
    var w' := w.(commandMu := mu).At(t, pc);
    assert forall u :: u in w'.threads && u != t ==> u in w.threads && w'.threads[u] == w.threads[u];
    assert HoldsMu(w.Pc(t)) ==> w.commandMu == Some(t);
    if !w.gatewayMode || !w.publisher {
      var u :| u in w.threads && Drained(w.threads[u]);
      assert Drained(w'.threads[u]);
    }
  }

  // A stopped caller goes on with the hand-over.
  lemma HandsOver(w: World, t: nat, pc: Pc, mode: bool, publisher: bool)
    requires Inv(w) && Drained(w.Pc(t)) && !HoldsMu(w.Pc(t)) && Drained(pc) && !HoldsMu(pc)
    ensures Inv(w.(gatewayMode := mode, publisher := publisher).At(t, pc))
  {
    var w' := w.(gatewayMode := mode, publisher := publisher).At(t, pc);
    assert forall u :: u in w'.threads && u != t ==> u in w.threads && w'.threads[u] == w.threads[u];
    assert Drained(w'.threads[t]) && Drained(w.threads[t]);
  }

  lemma ClosedIsOnce(w: World)
    requires Inv(w) && w.closes > 0
    ensures w.closes == 1 && w.cancelled
  {
  }

  lemma MoveKept(w: World, t: nat)
    requires Inv(w) && Can(w, Move(t))
    ensures Inv(Step(w, t))
  {
    StoppingKnows(w, t);
    hide Inv;
    match w.Pc(t)
    case StopWaiting => ClosedIsOnce(w); Moved(w, t, StopJoining);
    case StopJoining => Locked(w, t, StopHolding, Some(t));
    case StopHolding => Locked(w, t, Stopped, None);
    case Stopped => HandsOver(w, t, Unpublished, w.gatewayMode, false);
    case Unpublished => HandsOver(w, t, HandedOver, false, w.publisher);
    case Acknowledged => Locked(w, t, Holding, Some(t));
    case Holding => if w.cancelled { Locked(w, t, Finished, None); } else { Locked(w, t, Allowed, Some(t)); }
    case Allowed => Locked(w, t, Overriding, Some(t));
    case Overriding => Locked(w, t, Finished, None);
    case _ =>
  }

  lemma StoppingKnows(w: World, t: nat)
    requires Inv(w)
    ensures (Stopping(w.Pc(t)) ==> w.cancelled) && (Joined(w.Pc(t)) ==> w.closes == 1)
    ensures HoldsMu(w.Pc(t)) ==> w.commandMu == Some(t)
  {
  }

  // ---- runs ----

  ghost predicate IsRun(ws: seq<World>, acts: seq<Act>) {
    && |ws| == |acts| + 1 && Initial(ws[0])
    && forall i :: 0 <= i < |acts| ==> Can(ws[i], acts[i]) && ws[i + 1] == Do(ws[i], acts[i])
  }

  lemma {:induction false} RunKeeps(ws: seq<World>, acts: seq<Act>, i: nat)
    requires IsRun(ws, acts) && i < |ws|
    ensures Inv(ws[i])
  {
    if i > 0 {
      hide Inv, Can, Do;
      RunKeeps(ws, acts, i - 1);
      StepKept(ws[i - 1], acts[i - 1]);
    }
  }

  // done is closed at most once, whatever the mix of Start and Stop calls, and
  // exactly once by the time any Stop has passed its wait.
  lemma DoneClosedOnce(ws: seq<World>, acts: seq<Act>, i: nat)
    requires IsRun(ws, acts) && i < |ws|
    ensures ws[i].closes <= 1
    ensures forall t :: t in ws[i].threads && Joined(ws[i].threads[t]) ==> ws[i].closes == 1
  {
    hide IsRun;
    RunKeeps(ws, acts, i);
  }

  lemma DrainedIsQuiet(w: World, t: nat)
    requires Inv(w) && t in w.threads && Drained(w.threads[t])
    ensures !Calling(w)
  {
  }

  lemma DrainedStays(w: World, a: Act, t: nat)
    requires Can(w, a) && t in w.threads && Drained(w.threads[t])
    ensures t in Do(w, a).threads && Drained(Do(w, a).threads[t])
  {
    match a
    case Start =>
    case Stop(u) => assert u != t;
    case Acknowledge(u) => assert u != t;
    case Move(u) => if u != t { OthersStay(w, u, t); }
    case Expire(u) => assert u != t;
    case Poll(_) =>
  }

  lemma OthersStay(w: World, u: nat, t: nat)
    requires u != t && t in w.threads
    ensures t in Step(w, u).threads && Step(w, u).threads[t] == w.threads[t]
  {
    var pc := w.Pc(u);
    if pc.StopWaiting? || pc.StopJoining? || pc.StopHolding? {
    } else if pc.Stopped? || pc.Unpublished? {
    } else if pc.Acknowledged? || pc.Holding? {
    } else if pc.Allowed? || pc.Overriding? {
    }
  }

  lemma {:induction false} DrainedForever(ws: seq<World>, acts: seq<Act>, i: nat, j: nat, t: nat)
    requires IsRun(ws, acts) && i <= j < |ws| && t in ws[i].threads && Drained(ws[i].threads[t])
    ensures t in ws[j].threads && Drained(ws[j].threads[t])
    decreases j - i
  {
    hide Can, Do, Initial;
    if i < j {
      DrainedForever(ws, acts, i, j - 1, t);
      DrainedStays(ws[j - 1], acts[j - 1], t);
    }
  }

  // Once any Stop has returned, no gateway callback runs or ever starts again, from
  // the poll loop or from an override acknowledgement.
  lemma StopJoins(ws: seq<World>, acts: seq<Act>, i: nat, j: nat, t: nat)
    requires IsRun(ws, acts) && i <= j < |ws| && t in ws[i].threads && ws[i].threads[t].Stopped?
    ensures !Calling(ws[j]) && ws[j].closes == 1
  {
    hide Calling, Can, Do;
    DrainedForever(ws, acts, i, j, t);
    RunKeeps(ws, acts, j);
    DrainedIsQuiet(ws[j], t);
  }

  // After the recovery probe has cleared the publisher or left gateway mode, no
  // gateway snapshot or status reaches the telemetry client.
  lemma HandOverIsFinal(ws: seq<World>, acts: seq<Act>, i: nat, j: nat)
    requires IsRun(ws, acts) && i <= j < |ws| && (!ws[i].gatewayMode || !ws[i].publisher)
    ensures !Calling(ws[j])
  {
    hide Calling, Can, Do;
    RunKeeps(ws, acts, i);
    var t :| t in ws[i].threads && Drained(ws[i].threads[t]);
    DrainedForever(ws, acts, i, j, t);
    RunKeeps(ws, acts, j);
    DrainedIsQuiet(ws[j], t);
  }
}
