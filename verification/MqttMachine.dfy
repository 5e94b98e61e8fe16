// The telemetry client as interleaved goroutines over its two locks
// (internal/mqtt/client.go, controller_commands.go, push.go, notifications.go,
// cerbo.go, water.go, controller.go).
//
// Each goroutine is a program counter. gatewayMu and stateMu are readers/writer
// locks; the session, the generation and the wall clock are read in steps of
// their own, so every interleaving of the critical sections is a run.
module MqttMachine {
  import opened Wrappers

  type Tid = nat

  datatype Lock = Lock(writer: Option<Tid>, readers: set<Tid>)
  {
    predicate Free() { writer.None? && readers == {} }

    predicate Open() { writer.None? }

    predicate Holds(t: Tid) { writer == Some(t) || t in readers }
  }

  const UNLOCKED := Lock(None, {})

  // What one step does with a lock. Touch is a whole write section in one step.
  datatype LockOp = Keep | Enter | Leave | Take | Drop | Touch

  predicate Can(lock: Lock, op: LockOp) {
    match op
    case Enter => lock.Open()
    case Take => lock.Free()
    case Touch => lock.Free()
    case _ => true
  }

  function Do(lock: Lock, op: LockOp, t: Tid): Lock {
    match op
    case Enter => lock.(readers := lock.readers + {t})
    case Leave => lock.(readers := lock.readers - {t})
    case Take => Lock(Some(t), {})
    case Drop => UNLOCKED
    case _ => lock
  }

  datatype Device = Pump | Valve

  datatype Status = Status(value: Option<int>, error: Option<string>, request: Option<string>)

  datatype Payload = Payload(value: Option<int>, request: string)

  datatype Owner = Session(s: nat) | Gateway

  // A banner; native ones carry the Victron source or identity.
  datatype Note = Note(id: string, native: bool, owner: Owner)

  // A controller document: `populated` when it has any field, `answer` when it has
  // an override field (which may not parse).
  datatype Frame = Frame(retained: bool, populated: bool, answer: Option<Option<Status>>)

  // What one callback has to apply, section by section.
  datatype Work =
    | StateFrame(frame: Frame)
    | OverrideFrame(frame: Frame)
    | Notice(id: string, native: bool)
    | Platform(ids: seq<string>)
    | Portal(portal: string)
    // A device leaf: the devices whose Mode it is, whether the reducer accepted it,
    // and the devices whose Mode is available afterwards.
    | Leaf(modes: set<Device>, retained: bool, accepted: bool, available: set<Device>)

  // What ApplyState takes from one gateway snapshot; absent notes keep the old ones.
  datatype GatewayState = GatewayState(
    envelope: Option<bool>, status: Option<Status>, statusAt: Option<nat>, waterOn: set<Device>, notes: Option<seq<string>>)

  // Everything stateMu protects that these properties speak of.
  datatype Data = Data(
    receipt: nat, status: Option<Status>, statusAt: Option<nat>,
    available: bool, liveAt: Option<nat>,
    waterAt: map<Device, nat>, waterOn: set<Device>,
    notes: seq<Note>, portal: Option<string>)

  // The hand-over steps of main.go: the gateway runs only in Live, and leaves Live
  // only when joined. `since` is the length of the log when DisableGatewayMode took gatewayMu.
  datatype Phase = Mqtt | Enabling(tid: Tid) | Enabled | Live | Joined | Disabling(tid: Tid, since: nat)

  datatype Command = Override(payload: Payload) | Generic | Plain | Water(device: Device)

  // What happened, in order.
  datatype Entry =
    | Heard(session: nat, generation: nat, retained: bool, at: nat)
    | Answered(receipt: nat, session: nat, generation: nat, retained: bool, status: Option<Status>)
    | ModeRead(devices: set<Device>, live: set<Device>, retained: bool, session: nat, at: nat)
    | Snapshot(snap: GatewayState, at: nat)
    | Sent(command: Command, session: nat, generation: nat, checkedAt: nat, receipt: nat, phase: Phase, actor: Tid)
    | Confirmed(payload: Payload, session: nat, generation: nat, receipt: nat, actor: Tid)

  datatype CallbackAt = Bound | Stamped | Checked | Inside | Guarded | Writing(stage: nat) | Written

  datatype CommandAt =
    | Begin | Stamping | Captured | Within | Sourced | Reading | Ready | Done | Leaving
    | Await | AckWithin | AckReading | AckNewer | AckDone(again: bool) | AckLeaving(again: bool)

  datatype Pc =
    | Idle
    | Callback(work: seq<Work>, session: nat, generation: nat, at: CallbackAt)
    // advanceMQTTSession: locked, session advanced, banners reset.
    | AdvanceLocked | AdvanceBumped | AdvanceReset
    // EnableGatewayMode and DisableGatewayMode.
    | SwitchLocked(on: bool) | SwitchSet(on: bool) | SwitchReset(on: bool) | SwitchClear(on: bool) | SwitchClearing(on: bool)
    // Gateway callbacks.
    | ApplyWaiting(snap: GatewayState)
    | ApplyLocked(snap: GatewayState)
    | ApplyDone
    | StatusBump(up: bool) | StatusClear(up: bool)
    | Run(command: Command, generation: nat, session: nat, receipt: nat, checkedAt: nat, from: nat, step: CommandAt)

  // A step of one goroutine: its lock operations and where it goes on.
  datatype Move = Move(gw: LockOp, st: LockOp, pc: Pc)

  datatype World = World(
    gw: Lock, st: Lock,
    mode: bool, session: nat, generation: nat, publisher: bool, connected: bool, open: bool,
    phase: Phase, now: nat, data: Data, log: seq<Entry>, threads: map<Tid, Pc>)
  {
    function Pc(t: Tid): Pc { if t in threads then threads[t] else Idle }

    function At(t: Tid, pc: Pc): World { this.(threads := threads[t := pc]) }

    function Make(t: Tid, m: Move): World { this.(gw := Do(gw, m.gw, t), st := Do(st, m.st, t)).At(t, m.pc) }

    function Log(e: Entry): World { this.(log := log + [e]) }
  }

  const FRESH: nat := 30000
  const MAX_NOTES: nat := 100

  // ---- stateMu sections ----

  function LastNotes(notes: seq<Note>): seq<Note> {
    if |notes| > MAX_NOTES then notes[|notes| - MAX_NOTES..] else notes
  }

  function Others(notes: seq<Note>): seq<Note> {
    if notes == [] then [] else (if notes[0].native then [] else [notes[0]]) + Others(notes[1..])
  }

  function Without(notes: seq<Note>, id: string): seq<Note> {
    if notes == [] then [] else (if notes[0].id == id then [] else [notes[0]]) + Without(notes[1..], id)
  }

  function Natives(ids: seq<string>, owner: Owner): seq<Note> {
    seq(|ids|, i requires 0 <= i < |ids| => Note(ids[i], true, owner))
  }

  // First part of a controller frame: liveness, availability, and what an empty document clears.
  function ApplyLiveness(d: Data, frame: Frame, now: nat): Data {
    var d := d.(liveAt := if frame.retained then None else Some(now), available := frame.populated);
    if frame.populated then d else d.(status := None, statusAt := None)
  }

  // Last part: the status and its observation time.
  function ApplyAnswer(d: Data, status: Option<Status>, retained: bool, now: nat): Data {
    d.(status := status, statusAt := if status.Some? && !retained then Some(now) else None)
  }

  function ApplyNotes(d: Data, work: Work, session: nat): Data {
    match work
    case Notice(id, native) => d.(notes := LastNotes(Without(d.notes, id) + [Note(id, native, Session(session))]))
    case Platform(ids) => d.(notes := LastNotes(Others(d.notes) + Natives(ids, Session(session))))
    case Portal(portal) => if d.portal.None? then d.(portal := Some(portal)) else d
    case _ => d
  }

  function LiveModes(modes: set<Device>, retained: bool, accepted: bool, available: set<Device>): set<Device> {
    if accepted && !retained then modes * available else {}
  }

  function ApplyLeaf(d: Data, modes: set<Device>, live: set<Device>, available: set<Device>, now: nat): Data {
    d.(waterOn := available,
       waterAt := map k | k in d.waterAt.Keys + live && (k in live || k !in modes) :: if k in live then now else d.waterAt[k])
  }

  // clearOptionalTelemetry, and the whole expiry of a silent controller.
  function ClearController(d: Data): Data {
    d.(available := false, status := None, statusAt := None, liveAt := None)
  }

  function ApplySnapshot(d: Data, snap: GatewayState, now: nat): Data {
    d.(liveAt := (match snap.envelope case None => d.liveAt case Some(up) => if up then Some(now) else None),
       available := snap.envelope == Some(true), status := snap.status, statusAt := snap.statusAt,
       waterOn := snap.waterOn, waterAt := map k | k in snap.waterOn :: now,
       notes := if snap.notes.Some? then Natives(snap.notes.value, Gateway) else d.notes)
  }

  // ---- readiness ----

  predicate FreshAt(at: Option<nat>, now: nat) {
    at.Some? && at.value <= now <= at.value + FRESH
  }

  predicate ReadyFor(d: Data, command: Command, now: nat) {
    match command
    case Override(_) => d.available && d.status.Some? && FreshAt(d.statusAt, now)
    case Generic => d.available && FreshAt(d.liveAt, now)
    case Plain => true
    case Water(device) => device in d.waterOn && device in d.waterAt && FreshAt(Some(d.waterAt[device]), now)
  }

  // state.OverrideAcknowledged: None when the controller rejected the request.
  function Acknowledged(status: Option<Status>, payload: Payload): Option<bool> {
    if status.None? || status.value.request != Some(payload.request) then Some(false)
    else if status.value.error.Some? then None
    else Some(status.value.value == payload.value)
  }

  // ---- the steps ----

  // Callbacks bound to a session: bindControllerCallback, bindPushCallback and the
  // guarded sections they reach. A native message may go on to its next section.
  function CallbackMove(w: World, pc: Pc, again: bool): Move
    requires pc.Callback?
  {
    var next := at => Callback(pc.work, pc.session, pc.generation, at);
    match pc.at
    case Bound => Move(Keep, Keep, Callback(pc.work, pc.session, w.generation, Stamped))
    case Stamped => Move(Keep, Keep, if w.session == pc.session then next(Checked) else Idle)
    case Checked => Move(Enter, Keep, next(Inside))
    case Inside =>
      if w.mode || w.session != pc.session || w.generation != pc.generation || pc.work == [] then Move(Leave, Keep, Idle)
      else Move(Keep, Keep, next(Guarded))
    case Guarded => Move(Keep, Take, next(Writing(0)))
    case Writing(stage) => if Applying(pc) then Move(Keep, Keep, next(Writing(stage + 1))) else Move(Keep, Drop, next(Written))
    case Written => Move(Leave, Keep, if again && |pc.work| > 1 then Callback(pc.work[1..], pc.session, pc.generation, Checked) else Idle)
  }

  predicate Applying(pc: Pc) { pc.Callback? && pc.at.Writing? && pc.work != [] && pc.at.stage < 3 }

  predicate CallbackStep(w: World, t: Tid, w': World, again: bool) {
    var pc := w.Pc(t);
    pc.Callback? &&
    var m := CallbackMove(w, pc, again);
    Can(w.gw, m.gw) && Can(w.st, m.st) &&
    w' == (if Applying(pc) then CallbackWrite(w, pc.work[0], pc.session, pc.generation, pc.at.stage) else w).Make(t, m)
  }

  function CallbackWrite(w: World, work: Work, s: nat, g: nat, stage: nat): World {
    match work
    case StateFrame(frame) =>
      if stage == 0 then w.(data := ApplyLiveness(w.data, frame, w.now)).Log(Heard(s, g, frame.retained, w.now))
      else FrameAnswer(w, frame, s, g, stage)
    case OverrideFrame(frame) => FrameAnswer(w, frame, s, g, stage)
    case Leaf(modes, retained, accepted, available) =>
      if stage == 0 then
        var live := LiveModes(modes, retained, accepted, available);
        w.(data := ApplyLeaf(w.data, modes, live, available, w.now)).Log(ModeRead(modes, live, retained, s, w.now))
      else w
    case _ => if stage == 0 then w.(data := ApplyNotes(w.data, work, s)) else w
  }

  // observeControllerCommands: the receipt, then the status it announces.
  function FrameAnswer(w: World, frame: Frame, s: nat, g: nat, stage: nat): World {
    if frame.answer.None? then w
    else if stage == 1 then
      w.(data := w.data.(receipt := w.data.receipt + 1)).Log(Answered(w.data.receipt + 1, s, g, frame.retained, frame.answer.value))
    else if stage == 2 then w.(data := ApplyAnswer(w.data, frame.answer.value, frame.retained, w.now))
    else w
  }

  // The moves of everything else: advanceMQTTSession, EnableGatewayMode and
  // DisableGatewayMode, ApplyState and the two sections of SetGatewayConnected.
  function SourceMove(pc: Pc): Option<Move> {
    match pc
    case AdvanceLocked => Some(Move(Keep, Keep, AdvanceBumped))
    case AdvanceBumped => Some(Move(Keep, Touch, AdvanceReset))
    case AdvanceReset => Some(Move(Drop, Keep, Idle))
    case SwitchLocked(on) => Some(Move(Keep, Keep, SwitchSet(on)))
    case SwitchSet(on) => Some(Move(Keep, Touch, SwitchReset(on)))
    case SwitchReset(on) => Some(Move(Drop, Keep, SwitchClear(on)))
    case SwitchClear(on) => Some(Move(Keep, Take, SwitchClearing(on)))
    case SwitchClearing(on) => Some(Move(Keep, Drop, Idle))
    case ApplyWaiting(snap) => Some(Move(Keep, Take, ApplyLocked(snap)))
    case ApplyLocked(_) => Some(Move(Keep, Keep, ApplyDone))
    case ApplyDone => Some(Move(Keep, Drop, Idle))
    case StatusBump(up) => Some(Move(Keep, Keep, if up then Idle else StatusClear(up)))
    case StatusClear(_) => Some(Move(Keep, Touch, Idle))
    case _ => None
  }

  function SourceEffect(w: World, pc: Pc): World {
    match pc
    case AdvanceLocked => w.(session := w.session + 1)
    case AdvanceBumped => if w.mode then w else w.(data := w.data.(notes := Others(w.data.notes)))
    case SwitchLocked(on) => w.(mode := on, generation := w.generation + 1, connected := on && w.connected)
    case SwitchSet(_) => w.(data := w.data.(notes := Others(w.data.notes)))
    case SwitchClearing(on) => w.(data := ClearController(w.data).(waterAt := map[]), phase := if on then Enabled else Mqtt)
    case ApplyLocked(snap) => w.(data := ApplySnapshot(w.data, snap, w.now)).Log(Snapshot(snap, w.now))
    case StatusBump(_) => w.(generation := w.generation + 1)
    case StatusClear(_) => w.(data := ClearController(w.data))
    case _ => w
  }

  predicate SourceStep(w: World, t: Tid, w': World) {
    var m := SourceMove(w.Pc(t));
    m.Some? && Can(w.gw, m.value.gw) && Can(w.st, m.value.st) && w' == SourceEffect(w, w.Pc(t)).Make(t, m.value)
  }

  // PublishCommand, publishControllerCommand with its acknowledgement, and SetWaterMode.
  // `go` resolves the choices the model leaves open: a gateway publisher takes the
  // command over (its own path is not part of this machine), or waiting for the
  // publish or the acknowledgement ends with an error.
  function CommandMove(w: World, pc: Pc, go: bool): Move
    requires pc.Run?
  {
    var next := step => pc.(step := step);
    match pc.step
    case Begin => Move(Keep, Keep, pc.(generation := w.generation, step := Stamping))
    case Stamping => Move(Keep, Keep, pc.(session := w.session, step := Captured))
    case Captured => if w.publisher && !go then Move(Keep, Keep, Idle) else Move(Enter, Keep, next(Within))
    case Within =>
      if w.generation != pc.generation || w.session != pc.session || w.mode || (w.publisher && pc.command.Override?) then Move(Leave, Keep, Idle)
      else Move(Keep, Keep, next(Sourced))
    case Sourced => Move(Keep, Enter, next(Reading))
    case Reading =>
      if ReadyFor(w.data, pc.command, w.now) && w.open then Move(Keep, Keep, pc.(receipt := w.data.receipt, checkedAt := w.now, step := Ready))
      else Move(Keep, Leave, next(Leaving))
    case Ready => Move(Keep, Keep, pc.(from := |w.log| + 1, step := Done))
    case Done => Move(Keep, Leave, next(if pc.command.Override? then AckLeaving(true) else Leaving))
    case Leaving => Move(Leave, Keep, Idle)
    case Await => if go then Move(Enter, Keep, next(AckWithin)) else Move(Keep, Keep, Idle)
    case AckWithin => Move(Keep, Enter, next(AckReading))
    case AckReading =>
      if w.mode || w.generation != pc.generation || w.session != pc.session || !w.open || !ReadyFor(w.data, pc.command, w.now) then
        Move(Keep, Keep, next(AckDone(false)))
      else if w.data.receipt <= pc.receipt then Move(Keep, Keep, next(AckDone(true)))
      else Move(Keep, Keep, next(AckNewer))
    case AckNewer => Move(Keep, Keep, next(AckDone(pc.command.Override? && Acknowledged(w.data.status, pc.command.payload) == Some(false))))
    case AckDone(again) => Move(Keep, Leave, next(AckLeaving(again)))
    case AckLeaving(again) => Move(Leave, Keep, if again then next(Await) else Idle)
  }

  function CommandEffect(w: World, t: Tid, pc: Pc): World
    requires pc.Run?
  {
    if pc.step.Ready? then w.Log(Sent(pc.command, pc.session, pc.generation, pc.checkedAt, pc.receipt, w.phase, t))
    else if pc.step.AckNewer? && pc.command.Override? && Acknowledged(w.data.status, pc.command.payload) == Some(true) then
      w.Log(Confirmed(pc.command.payload, pc.session, pc.generation, pc.receipt, t))
    else w
  }

  predicate CommandStep(w: World, t: Tid, w': World, go: bool) {
    var pc := w.Pc(t);
    pc.Run? &&
    var m := CommandMove(w, pc, go);
    Can(w.gw, m.gw) && Can(w.st, m.st) && w' == CommandEffect(w, t, pc).Make(t, m)
  }

  // What an idle goroutine may begin: a callback bound to a session that was
  // handed out, or a command.
  ghost predicate BeginWork(w: World, t: Tid, w': World) {
    || (exists work: seq<Work>, s: nat :: s <= w.session && w' == w.Make(t, Move(Keep, Keep, Callback(work, s, 0, Bound))))
    || (exists command: Command :: w' == w.Make(t, Move(Keep, Keep, Run(command, 0, 0, 0, 0, 0, Begin))))
  }

  // The gateway client calls back: a snapshot, or a change of its health.
  ghost predicate GatewayCall(w: World, t: Tid, w': World) {
    || (exists snap: GatewayState :: w' == w.Make(t, Move(Keep, Keep, ApplyWaiting(snap))))
    || (w.gw.Free() && w' == w.(connected := !w.connected).Make(t, Move(Touch, Keep, StatusBump(!w.connected))))
  }

  // A gateway callback, while the gateway client is live. MqttJoined derives this guard,
  // and that of GatewayJoined, from the gateway client's own locks.
  ghost predicate BeginGateway(w: World, t: Tid, w': World) {
    w.phase.Live? && GatewayCall(w, t, w')
  }

  // A session change, or a switch in the order of main.go.
  predicate BeginSource(w: World, t: Tid, w': World) {
    w.gw.Free() &&
    (|| w' == w.Make(t, Move(Take, Keep, AdvanceLocked))
     || (w.phase.Mqtt? && w' == w.(phase := Enabling(t)).Make(t, Move(Take, Keep, SwitchLocked(true))))
     || (w.phase.Joined? && !w.publisher && w' == w.(phase := Disabling(t, |w.log|)).Make(t, Move(Take, Keep, SwitchLocked(false)))))
  }

  ghost predicate BeginStep(w: World, t: Tid, w': World) {
    w.Pc(t).Idle? && (BeginWork(w, t, w') || BeginGateway(w, t, w') || BeginSource(w, t, w'))
  }

  predicate GatewayPc(pc: Pc) {
    pc.ApplyWaiting? || pc.ApplyLocked? || pc.ApplyDone? || pc.StatusBump? || pc.StatusClear?
  }

  predicate Quiet(w: World) {
    forall u :: u in w.threads ==> !GatewayPc(w.threads[u])
  }

  // Single locked sections and the environment: the clock, the connection, the
  // gateway's lifetime, the publisher, a push reset, a telemetry expiry, an empty
  // controller snapshot, and the overlay recomputed after the leaf cache was dropped.
  datatype Event = Clock(later: nat) | Connection | GatewayStarts | GatewayJoined | Publisher | PushReset
                 | Expiry | EmptySnapshot | Overlay(on: set<Device>)

  predicate May(w: World, c: Event) {
    match c
    case Clock(later) => w.now <= later
    case Connection => true
    case GatewayStarts => w.phase.Enabled?
    case GatewayJoined => w.phase.Live? && Quiet(w)
    case Publisher => w.gw.Free() && !w.phase.Mqtt? && !w.phase.Disabling?
    case PushReset => w.gw.Free() && !w.mode
    case _ => w.st.Free()
  }

  function Happens(w: World, c: Event): World {
    match c
    case Clock(later) => w.(now := later)
    case Connection => w.(open := !w.open)
    case GatewayStarts => w.(phase := Live)
    case GatewayJoined => w.(phase := Joined)
    case Publisher => w.(publisher := !w.publisher)
    case PushReset => w.(generation := w.generation + 1)
    case Expiry => w.(data := ClearController(w.data))
    case EmptySnapshot => w.(data := ClearController(w.data).(liveAt := w.data.liveAt))
    case Overlay(on) => w.(data := w.data.(waterOn := on))
  }

  ghost predicate WorldStep(w: World, w': World) {
    exists c: Event :: May(w, c) && w' == Happens(w, c)
  }

  ghost predicate GoroutineStep(w: World, t: Tid, w': World) {
    || CallbackStep(w, t, w', false) || CallbackStep(w, t, w', true) || SourceStep(w, t, w')
    || CommandStep(w, t, w', false) || CommandStep(w, t, w', true) || BeginStep(w, t, w')
  }

  // A goroutine or, when nobody is named, the environment moves.
  ghost predicate Step(w: World, who: Option<Tid>, w': World) {
    match who
    case Some(t) => GoroutineStep(w, t, w')
    case None => WorldStep(w, w')
  }

  predicate Initial(w: World) {
    && w.gw == UNLOCKED && w.st == UNLOCKED && !w.mode && !w.publisher && w.phase.Mqtt?
    && w.log == [] && w.threads == map[]
    && w.data == Data(0, None, None, false, None, map[], {}, [], None)
  }
}
