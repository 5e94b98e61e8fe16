// The inductive invariant of the telemetry client.
module MqttInvariant {
  import opened Wrappers
  import opened MqttMachine

  // ---- who holds which lock ----

  predicate GwRead(pc: Pc) {
    match pc
    case Callback(_, _, _, at) => at.Inside? || at.Guarded? || at.Writing? || at.Written?
    case Run(_, _, _, _, _, _, step) =>
      || step.Within? || step.Sourced? || step.Reading? || step.Ready? || step.Done? || step.Leaving?
      || step.AckWithin? || step.AckReading? || step.AckNewer? || step.AckDone? || step.AckLeaving?
    case _ => false
  }

  predicate GwWrite(pc: Pc) {
    pc.AdvanceLocked? || pc.AdvanceBumped? || pc.AdvanceReset? || pc.SwitchLocked? || pc.SwitchSet? || pc.SwitchReset?
  }

  predicate StRead(pc: Pc) {
    pc.Run? && (pc.step.Reading? || pc.step.Ready? || pc.step.Done? || pc.step.AckReading? || pc.step.AckNewer? || pc.step.AckDone?)
  }

  predicate StWrite(pc: Pc) {
    (pc.Callback? && pc.at.Writing?) || pc.SwitchClearing? || pc.ApplyLocked? || pc.ApplyDone?
  }

  predicate Member(lock: Lock, u: Tid, reading: bool, writing: bool) {
    (u in lock.readers <==> reading) && (lock.writer == Some(u) <==> writing)
  }

  predicate Exclusive(lock: Lock) { lock.writer.Some? ==> lock.readers == {} }

  // ---- reading the log ----

  function LastController(log: seq<Entry>): Option<Entry> {
    if log == [] then None
    else
      var e := log[|log| - 1];
      if e.Heard? || (e.Snapshot? && e.snap.envelope.Some?) then Some(e) else LastController(log[..|log| - 1])
  }

  function LastStatus(log: seq<Entry>): Option<Entry> {
    if log == [] then None
    else
      var e := log[|log| - 1];
      if e.Answered? || e.Snapshot? then Some(e) else LastStatus(log[..|log| - 1])
  }

  function LastAnswer(log: seq<Entry>): (r: Option<Entry>)
    ensures r.Some? ==> r.value.Answered?
  {
    if log == [] then None
    else if log[|log| - 1].Answered? then Some(log[|log| - 1])
    else LastAnswer(log[..|log| - 1])
  }

  function LastMode(log: seq<Entry>, device: Device): Option<Entry> {
    if log == [] then None
    else
      var e := log[|log| - 1];
      if (e.ModeRead? && device in e.devices) || e.Snapshot? then Some(e) else LastMode(log[..|log| - 1], device)
  }

  // A Mode reading of the device was accepted at or after this point of the log.
  predicate ReadFrom(log: seq<Entry>, since: nat, device: Device) {
    exists k :: since <= k < |log| && log[k].ModeRead? && device in log[k].devices
  }

  predicate NoSnapshotFrom(log: seq<Entry>, since: nat) {
    since <= |log| && forall k :: since <= k < |log| ==> !log[k].Snapshot?
  }

  // A live controller frame, or a gateway envelope that says the controller is available.
  predicate LiveController(e: Option<Entry>, at: nat) {
    match e
    case Some(Heard(_, _, retained, t)) => !retained && t == at
    case Some(Snapshot(snap, t)) => snap.envelope == Some(true) && t == at
    case _ => false
  }

  predicate LiveMode(e: Option<Entry>, device: Device, at: nat) {
    match e
    case Some(ModeRead(devices, live, retained, _, t)) => device in devices && device in live && !retained && t == at
    case Some(Snapshot(snap, t)) => device in snap.waterOn && t == at
    case _ => false
  }

  predicate StatusFrom(e: Option<Entry>, d: Data) {
    match e
    case Some(Answered(_, _, _, retained, status)) => d.status == status && (d.statusAt.Some? ==> !retained)
    case Some(Snapshot(snap, _)) => d.status == snap.status
    case _ => false
  }

  // ---- one goroutine ----

  predicate Fenced(w: World, s: nat, g: nat) {
    !w.mode && w.session == s && w.generation == g
  }

  predicate Installing(pc: Pc) {
    pc.Callback? && pc.at == Writing(2) && pc.work != [] && (pc.work[0].StateFrame? || pc.work[0].OverrideFrame?) && pc.work[0].frame.answer.Some?
  }

  predicate CallbackInv(w: World, work: seq<Work>, s: nat, g: nat, at: CallbackAt) {
    && s <= w.session && g <= w.generation
    && (at.Guarded? || at.Writing? || at.Written? ==> Fenced(w, s, g))
    && (at.Guarded? || at.Writing? ==> work != [])
    && (Installing(Callback(work, s, g, at)) ==>
          LastStatus(w.log) == Some(Answered(w.data.receipt, s, g, work[0].frame.retained, work[0].frame.answer.value)))
  }

  // The log from the dispatch on, as long as the generation has not moved.
  predicate Since(w: World, u: Tid, command: Command, s: nat, g: nat, r: nat, c: nat, f: nat) {
    && 0 < f <= |w.log| && (w.log[f - 1].Sent? && w.log[f - 1] == Sent(command, s, g, c, r, w.log[f - 1].phase, u))
    && (forall i :: f <= i < |w.log| && w.log[i].Sent? ==> w.log[i].actor != u)
    && (w.generation == g ==> !w.mode && forall i :: f <= i < |w.log| ==> !w.log[i].Snapshot?)
    && (forall i :: f <= i < |w.log| && w.log[i].Answered? ==> w.log[i].session >= s && w.log[i].generation >= g)
    && (forall i :: 0 <= i < f && w.log[i].Answered? ==> w.log[i].receipt <= r)
  }

  predicate RunInv(w: World, u: Tid, command: Command, g: nat, s: nat, r: nat, c: nat, f: nat, step: CommandAt) {
    && s <= w.session && g <= w.generation
    && (step.Sourced? || step.Reading? || step.Ready? || step.AckNewer? ==> Fenced(w, s, g))
    && (step.Ready? ==> ReadyFor(w.data, command, c) && c <= w.now && r == w.data.receipt)
    && (Dispatched(step) ==> Since(w, u, command, s, g, r, c, f))
    && (step.AckNewer? ==> w.data.status.Some? && w.data.statusAt.Some? && w.data.receipt > r)
    && (AckStep(step) ==> command.Override?)
  }

  predicate AckStep(step: CommandAt) {
    step.Await? || step.AckWithin? || step.AckReading? || step.AckNewer? || step.AckDone? || step.AckLeaving?
  }

  predicate Dispatched(step: CommandAt) { step.Done? || AckStep(step) }

  predicate SwitchedBy(phase: Phase, on: bool, u: Tid) {
    if on then phase.Enabling? && phase.tid == u else phase.Disabling? && phase.tid == u
  }

  predicate PcInv(w: World, u: Tid, pc: Pc) {
    match pc
    case Callback(work, s, g, at) => CallbackInv(w, work, s, g, at)
    case SwitchLocked(on) => SwitchedBy(w.phase, on, u)
    case SwitchSet(on) => SwitchedBy(w.phase, on, u) && w.mode == on
    case SwitchReset(on) => SwitchedBy(w.phase, on, u) && w.mode == on
    case SwitchClear(on) => SwitchedBy(w.phase, on, u) && w.mode == on
    case SwitchClearing(on) => SwitchedBy(w.phase, on, u) && w.mode == on
    case Run(command, g, s, r, c, f, step) => RunInv(w, u, command, g, s, r, c, f, step)
    case _ => GatewayPc(pc) ==> w.phase.Live?
  }

  predicate Fine(w: World, u: Tid) {
    && Member(w.gw, u, GwRead(w.Pc(u)), GwWrite(w.Pc(u)))
    && Member(w.st, u, StRead(w.Pc(u)), StWrite(w.Pc(u)))
    && PcInv(w, u, w.Pc(u))
  }

  ghost predicate AllFine(w: World) { forall u: Tid :: Fine(w, u) }

  // ---- shared facts ----

  predicate PhaseInv(w: World) {
    && (w.phase.Mqtt? ==> !w.mode)
    && (w.phase.Enabled? || w.phase.Live? || w.phase.Joined? ==> w.mode)
  }

  ghost predicate ControllerInv(w: World) {
    w.data.liveAt.Some? ==> LiveController(LastController(w.log), w.data.liveAt.value) && w.data.liveAt.value <= w.now
  }

  ghost predicate StatusInv(w: World) {
    && (w.data.receipt > 0 ==> LastAnswer(w.log).Some? && LastAnswer(w.log).value.receipt == w.data.receipt)
    && (w.data.status.Some? && !(w.st.writer.Some? && Installing(w.Pc(w.st.writer.value))) ==> StatusFrom(LastStatus(w.log), w.data))
    && (forall i :: 0 <= i < |w.log| && w.log[i].Answered? ==>
          w.log[i].receipt <= w.data.receipt && w.log[i].session <= w.session && w.log[i].generation <= w.generation)
  }

  // Where the observation of a device stands: native before the gateway, the gateway's
  // while it is on, and after it native only when read since the hand-over began.
  predicate WaterSource(phase: Phase, log: seq<Entry>, d: Device)
    requires LastMode(log, d).Some?
  {
    match phase
    case Mqtt => LastMode(log, d).value.ModeRead?
    case Enabling(_) => LastMode(log, d).value.ModeRead?
    case Disabling(_, since) => LastMode(log, d).value.ModeRead? ==> ReadFrom(log, since, d)
    case _ => LastMode(log, d).value.Snapshot?
  }

  ghost predicate WaterInv(w: World) {
    && (w.phase.Disabling? ==> NoSnapshotFrom(w.log, w.phase.since))
    && forall d :: d in w.data.waterAt ==>
         && LiveMode(LastMode(w.log, d), d, w.data.waterAt[d]) && w.data.waterAt[d] <= w.now
         && WaterSource(w.phase, w.log, d)
  }

  // The native banners belong to the current source, except while a switch or a
  // session change is about to remove them.
  predicate Resetting(pc: Pc, mode: bool) { (pc.AdvanceBumped? && !mode) || pc.SwitchSet? }

  predicate OwnedBy(n: Note, w: World) {
    n.native ==> if w.mode then n.owner.Gateway? else n.owner == Session(w.session)
  }

  ghost predicate BannerInv(w: World) {
    (w.gw.writer.Some? && Resetting(w.Pc(w.gw.writer.value), w.mode)) || forall n :: n in w.data.notes ==> OwnedBy(n, w)
  }

  // ---- the history ----

  predicate SentBacked(before: seq<Entry>, e: Entry)
    requires e.Sent?
  {
    match e.command
    case Generic =>
      var last := LastController(before);
      last.Some? && (last.value.Heard? || last.value.Snapshot?) && LiveController(last, last.value.at)
      && last.value.at <= e.checkedAt <= last.value.at + FRESH
    case Water(device) =>
      var last := LastMode(before, device);
      last.Some? && (last.value.ModeRead? || last.value.Snapshot?) && LiveMode(last, device, last.value.at)
      && last.value.at <= e.checkedAt <= last.value.at + FRESH
      && (if e.phase.Disabling? then last.value.ModeRead? <==> ReadFrom(before, e.phase.since, device) else last.value.ModeRead?)
    case _ => true
  }

  predicate IsDispatch(d: Entry, e: Entry)
    requires e.Confirmed?
  {
    d.Sent? && d.command == Override(e.payload) && d.session == e.session && d.generation == e.generation && d.receipt == e.receipt && d.actor == e.actor
  }

  // An answer that settles the request: same session and generation as the dispatch,
  // a newer receipt, not retained, and an exact match.
  predicate IsAnswer(a: Entry, e: Entry)
    requires e.Confirmed?
  {
    && a.Answered? && a.receipt > e.receipt && a.session == e.session && a.generation == e.generation
    && !a.retained && Acknowledged(a.status, e.payload) == Some(true)
  }

  predicate SetsStatus(e: Entry) { e.Answered? || e.Snapshot? }

  // The goroutine's own latest dispatch comes first, then such an answer, and nothing
  // after it sets the status.
  ghost predicate ConfirmedBy(before: seq<Entry>, e: Entry, f: nat, k: nat)
    requires e.Confirmed?
  {
    && 0 < f <= k < |before| && IsDispatch(before[f - 1], e) && IsAnswer(before[k], e)
    && (forall i :: k < i < |before| ==> !SetsStatus(before[i]))
    && forall i :: f <= i < |before| && before[i].Sent? ==> before[i].actor != e.actor
  }

  ghost predicate ConfirmedBacked(before: seq<Entry>, e: Entry)
    requires e.Confirmed?
  {
    exists f, k :: ConfirmedBy(before, e, f, k)
  }

  ghost predicate EntryBacked(before: seq<Entry>, e: Entry) {
    match e
    case Sent(_, _, _, _, _, _, _) => SentBacked(before, e)
    case Confirmed(_, _, _, _, _) => ConfirmedBacked(before, e)
    case _ => true
  }

  ghost predicate LogInv(log: seq<Entry>) {
    forall i :: 0 <= i < |log| ==> EntryBacked(log[..i], log[i])
  }

  ghost predicate Shared(w: World) {
    PhaseInv(w) && ControllerInv(w) && StatusInv(w) && WaterInv(w) && BannerInv(w) && LogInv(w.log)
  }

  ghost predicate Inv(w: World) {
    Exclusive(w.gw) && Exclusive(w.st) && AllFine(w) && Shared(w)
  }

  // ---- what a step of one goroutine promises the others ----

  predicate SameMember(l: Lock, l': Lock, u: Tid) {
    (u in l'.readers <==> u in l.readers) && (l'.writer == Some(u) <==> l.writer == Some(u))
  }

  ghost predicate SameReading(log: seq<Entry>, log': seq<Entry>) {
    && LastController(log') == LastController(log) && LastStatus(log') == LastStatus(log) && LastAnswer(log') == LastAnswer(log)
    && forall d :: LastMode(log', d) == LastMode(log, d)
  }

  ghost predicate NewEntry(w: World, t: Tid, e: Entry) {
    && (e.Sent? || e.Confirmed? ==> e.actor == t)
    && (e.Answered? ==> e.session == w.session && e.generation == w.generation && e.receipt == w.data.receipt + 1 && !w.mode)
    && (e.Snapshot? ==> w.mode)
    && EntryBacked(w.log, e)
  }

  ghost predicate Alone(lock: Lock, t: Tid) { lock.writer == Some(t) || lock.Free() }

  ghost predicate Promise(w: World, t: Tid, w': World) {
    && Exclusive(w'.gw) && Exclusive(w'.st)
    && (forall u :: u != t ==> w'.Pc(u) == w.Pc(u) && SameMember(w.gw, w'.gw, u) && SameMember(w.st, w'.st, u))
    && w.session <= w'.session && w.generation <= w'.generation && w.now <= w'.now
    && (w'.mode != w.mode ==> w'.generation > w.generation && (SwitchedBy(w.phase, true, t) || SwitchedBy(w.phase, false, t)))
    && ((w'.mode == w.mode && w'.session == w.session) || w.gw.writer == Some(t))
    && (w'.generation == w.generation || Alone(w.gw, t) || w.mode)
    && (w'.log == w.log || exists e :: w'.log == w.log + [e] && NewEntry(w, t, e))
    && ((w'.data == w.data && SameReading(w.log, w'.log)) || Alone(w.st, t))
    && (w'.phase == w.phase
        || (!w.phase.Enabling? && !w.phase.Disabling? && (w.phase.Live? ==> Quiet(w)))
        || (w.phase.Enabling? && w.phase.tid == t) || (w.phase.Disabling? && w.phase.tid == t))
  }

  // ---- a goroutine keeps what it knows while another one moves ----

  lemma KeepsLocks(w: World, t: Tid, w': World, u: Tid)
    requires Promise(w, t, w') && u != t && Fine(w, u)
    ensures w'.Pc(u) == w.Pc(u)
    ensures Member(w'.gw, u, GwRead(w'.Pc(u)), GwWrite(w'.Pc(u))) && Member(w'.st, u, StRead(w'.Pc(u)), StWrite(w'.Pc(u)))
  {
    hide EntryBacked, PcInv, GwRead, GwWrite, StRead, StWrite;
  }

  // Holding the read side of gatewayMu with gateway mode off freezes mode, session and generation.
  lemma KeepsFence(w: World, t: Tid, w': World, u: Tid, s: nat, g: nat)
    requires Promise(w, t, w') && u != t && Fine(w, u) && Exclusive(w.gw)
    requires GwRead(w.Pc(u)) && Fenced(w, s, g)
    ensures Fenced(w', s, g)
  {
    hide EntryBacked, PcInv, StRead, StWrite, GwRead, GwWrite, SameReading, NewEntry;
    assert u in w.gw.readers;
  }

  // Holding stateMu freezes the state and what the log says about it.
  lemma KeepsData(w: World, t: Tid, w': World, u: Tid)
    requires Promise(w, t, w') && u != t && Fine(w, u) && Exclusive(w.st)
    requires StRead(w.Pc(u)) || StWrite(w.Pc(u))
    ensures w'.data == w.data && SameReading(w.log, w'.log)
  {
    hide EntryBacked, PcInv, StRead, StWrite, GwRead, GwWrite, SameReading, NewEntry;
    assert u in w.st.readers || w.st.writer == Some(u);
  }

  lemma KeepsSince(w: World, t: Tid, w': World, u: Tid, command: Command, s: nat, g: nat, r: nat, c: nat, f: nat)
    requires Promise(w, t, w') && u != t && s <= w.session && g <= w.generation && Since(w, u, command, s, g, r, c, f)
    ensures Since(w', u, command, s, g, r, c, f)
  {
    hide EntryBacked, SameReading;
  }

  lemma KeepsPhase(w: World, t: Tid, w': World, u: Tid)
    requires Promise(w, t, w') && u != t && Fine(w, u) && Exclusive(w.gw)
    requires !w.Pc(u).Callback? && !w.Pc(u).Run? && !w.Pc(u).Idle?
    requires PhaseInv(w)
    ensures GatewayPc(w.Pc(u)) ==> w'.phase == w.phase
    ensures w.Pc(u).SwitchLocked? || w.Pc(u).SwitchSet? || w.Pc(u).SwitchReset? || w.Pc(u).SwitchClear? || w.Pc(u).SwitchClearing? ==> w'.phase == w.phase
  {
    hide EntryBacked, SameReading, NewEntry, StRead, StWrite, GwRead, GwWrite;
    if GatewayPc(w.Pc(u)) {
      assert u in w.threads;
    }
  }

  lemma KeepsCallback(w: World, t: Tid, w': World, u: Tid)
    requires Promise(w, t, w') && u != t && Fine(w, u) && Exclusive(w.gw) && Exclusive(w.st) && w.Pc(u).Callback?
    ensures Fine(w', u)
  {
    hide Promise, Fenced, SameReading;
    KeepsLocks(w, t, w', u);
    Forward(w, t, w');
    var pc := w.Pc(u);
    if pc.at.Guarded? || pc.at.Writing? || pc.at.Written? {
      KeepsFence(w, t, w', u, pc.session, pc.generation);
    }
    if Installing(pc) {
      KeepsData(w, t, w', u);
      SameStatus(w.log, w'.log);
    }
  }

  lemma Forward(w: World, t: Tid, w': World)
    requires Promise(w, t, w')
    ensures w.session <= w'.session && w.generation <= w'.generation && w.now <= w'.now
  {
  }

  lemma SameStatus(log: seq<Entry>, log': seq<Entry>)
    requires SameReading(log, log')
    ensures LastStatus(log') == LastStatus(log)
  {
  }

  lemma KeepsRun(w: World, t: Tid, w': World, u: Tid)
    requires Promise(w, t, w') && u != t && Fine(w, u) && Exclusive(w.gw) && Exclusive(w.st) && w.Pc(u).Run?
    ensures Fine(w', u)
  {
    hide Promise, Fenced, Since, ReadyFor, SameReading;
    KeepsLocks(w, t, w', u);
    Forward(w, t, w');
    var pc := w.Pc(u);
    if pc.step.Sourced? || pc.step.Reading? || pc.step.Ready? || pc.step.AckNewer? {
      KeepsFence(w, t, w', u, pc.session, pc.generation);
    }
    if StRead(pc) {
      KeepsData(w, t, w', u);
    }
    if Dispatched(pc.step) {
      KeepsSince(w, t, w', u, pc.command, pc.session, pc.generation, pc.receipt, pc.checkedAt, pc.from);
    }
  }

  lemma KeepsOther(w: World, t: Tid, w': World, u: Tid)
    requires Promise(w, t, w') && u != t && Fine(w, u) && Exclusive(w.gw) && PhaseInv(w)
    requires !w.Pc(u).Callback? && !w.Pc(u).Run?
    ensures Fine(w', u)
  {
    KeepsLocks(w, t, w', u);
    if !w.Pc(u).Idle? {
      KeepsPhase(w, t, w', u);
    }
    hide EntryBacked, SameReading, NewEntry, StRead, StWrite, GwRead, GwWrite, Quiet;
  }

  lemma Keeps(w: World, t: Tid, w': World)
    requires Promise(w, t, w') && AllFine(w) && Exclusive(w.gw) && Exclusive(w.st) && PhaseInv(w) && Fine(w', t)
    ensures AllFine(w')
  {
    hide Promise, Fine, PhaseInv, Exclusive;
    forall u: Tid ensures Fine(w', u) {
      assert Fine(w, u);
      if u == t {
      } else if w.Pc(u).Callback? {
        KeepsCallback(w, t, w', u);
      } else if w.Pc(u).Run? {
        KeepsRun(w, t, w', u);
      } else {
        KeepsOther(w, t, w', u);
      }
    }
  }
}
