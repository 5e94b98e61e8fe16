// The invariant over each kind of step.
module MqttSteps {
  import opened Wrappers
  import opened MqttMachine
  import opened MqttInvariant
  import opened MqttPreserve

  // ---- steps without an effect on the shared state ----

  lemma StillPromise(w: World, t: Tid)
    ensures EffectPromise(w, t, w)
  {
  }

  lemma Still(w: World, t: Tid, m: Move)
    requires Inv(w) && Can(w.gw, m.gw) && Can(w.st, m.st) && MoveFits(w.Pc(t), m) && PcInv(w, t, m.pc)
    requires !Installing(w.Pc(t)) && !Installing(m.pc) && !Resetting(w.Pc(t), w.mode) && !Resetting(m.pc, w.mode)
    ensures Inv(w.Make(t, m))
  {
    StillPromise(w, t);
    SharedAsFact(w);
    FineAt(w, t);
    NotNow(w, t, m);
    hide SharedFact, EffectPromise, PcInv, AllFine, Shared, GwRead, StRead, GwWrite, StWrite, Installing, Resetting, MoveFits, Fine;
    Preserved(w, w, t, m);
  }

  lemma NotNow(w: World, t: Tid, m: Move)
    requires Fine(w, t) && Can(w.gw, m.gw) && Can(w.st, m.st) && MoveFits(w.Pc(t), m)
    requires !Installing(w.Pc(t)) && !Resetting(w.Pc(t), w.mode)
    ensures StWrite(w.Pc(t)) || StWrite(m.pc) ==> !InstallingNow(w)
    ensures GwWrite(w.Pc(t)) || GwWrite(m.pc) ==> !ResettingNow(w)
  {
    hide PcInv, GwRead, StRead;
  }

  // ---- callbacks ----

  lemma CallbackFits(w: World, t: Tid, again: bool)
    requires Fine(w, t) && w.Pc(t).Callback?
    ensures MoveFits(w.Pc(t), CallbackMove(w, w.Pc(t), again))
    ensures !Resetting(w.Pc(t), w.mode) && !Resetting(CallbackMove(w, w.Pc(t), again).pc, w.mode)
  {
    hide PcInv;
  }

  lemma CallbackKnows(w: World, t: Tid, again: bool)
    requires Fine(w, t) && w.Pc(t).Callback? && !Applying(w.Pc(t))
    ensures PcInv(w, t, CallbackMove(w, w.Pc(t), again).pc)
    ensures !Installing(w.Pc(t)) && !Installing(CallbackMove(w, w.Pc(t), again).pc)
  {
    hide LastStatus;
  }

  lemma CallbackStill(w: World, t: Tid, w': World, again: bool)
    requires Inv(w) && CallbackStep(w, t, w', again) && !Applying(w.Pc(t))
    ensures Inv(w')
  {
    hide Inv, MoveFits, PcInv, Fine, Installing, Resetting, CallbackMove;
    InvFine(w, t);
    CallbackFits(w, t, again);
    CallbackKnows(w, t, again);
    Still(w, t, CallbackMove(w, w.Pc(t), again));
  }

  lemma InvFine(w: World, t: Tid)
    requires Inv(w)
    ensures Fine(w, t)
  {
  }

  // ---- what appending an entry does to the readings ----

  lemma Appended(log: seq<Entry>, e: Entry)
    ensures LastController(log + [e]) == if e.Heard? || (e.Snapshot? && e.snap.envelope.Some?) then Some(e) else LastController(log)
    ensures LastStatus(log + [e]) == if e.Answered? || e.Snapshot? then Some(e) else LastStatus(log)
    ensures LastAnswer(log + [e]) == if e.Answered? then Some(e) else LastAnswer(log)
    ensures forall d :: LastMode(log + [e], d) == if (e.ModeRead? && d in e.devices) || e.Snapshot? then Some(e) else LastMode(log, d)
    ensures forall since: nat, d :: ReadFrom(log + [e], since, d) <==> ReadFrom(log, since, d) || (since <= |log| && e.ModeRead? && d in e.devices)
    ensures forall since: nat :: since <= |log| ==> (NoSnapshotFrom(log + [e], since) <==> NoSnapshotFrom(log, since) && !e.Snapshot?)
  {
    assert (log + [e])[..|log|] == log;
    forall since: nat, d ensures ReadFrom(log + [e], since, d) <==> ReadFrom(log, since, d) || (since <= |log| && e.ModeRead? && d in e.devices) {
      ReadAppended(log, e, since, d);
    }
  }

  lemma ReadAppended(log: seq<Entry>, e: Entry, since: nat, d: Device)
    ensures ReadFrom(log + [e], since, d) <==> ReadFrom(log, since, d) || (since <= |log| && e.ModeRead? && d in e.devices)
  {
    if k :| since <= k < |log| && log[k].ModeRead? && d in log[k].devices {
      assert (log + [e])[k] == log[k];
    }
    if since <= |log| && e.ModeRead? && d in e.devices {
      assert (log + [e])[|log|] == e;
    }
  }

  // Without a snapshot since, a reading since is the newest observation's kind.
  lemma {:induction false} ReadIsLast(log: seq<Entry>, since: nat, d: Device)
    requires NoSnapshotFrom(log, since) && ReadFrom(log, since, d)
    ensures LastMode(log, d).Some? && LastMode(log, d).value.ModeRead?
    decreases |log|
  {
    var n := |log| - 1;
    if !(log[n].ModeRead? && d in log[n].devices) {
      var k :| since <= k < |log| && log[k].ModeRead? && d in log[k].devices;
      assert log[..n][k] == log[k];
      ReadIsLast(log[..n], since, d);
    }
  }

  lemma LogAppend(log: seq<Entry>, e: Entry)
    requires LogInv(log) && EntryBacked(log, e)
    ensures LogInv(log + [e])
  {
    hide EntryBacked;
    forall i | 0 <= i <= |log| ensures EntryBacked((log + [e])[..i], (log + [e])[i]) {
      assert (log + [e])[..i] == log[..i];
      assert log[..|log|] == log;
    }
  }

  lemma EntryPromise(w: World, t: Tid, x: World, e: Entry)
    requires x.log == w.log + [e] && NewEntry(w, t, e) && w.st.writer == Some(t)
    requires x.mode == w.mode && x.session == w.session && x.generation == w.generation && x.phase == w.phase && x.now == w.now
    ensures EffectPromise(w, t, x)
  {
    hide EntryBacked;
  }

  lemma DataPromise(w: World, t: Tid, x: World)
    requires Alone(w.st, t) && x.log == w.log
    requires x.mode == w.mode && x.session == w.session && x.generation == w.generation && x.phase == w.phase && x.now == w.now
    ensures EffectPromise(w, t, x)
  {
  }

  // ---- the write sections of callbacks ----

  lemma FactOf(w: World, t: Tid)
    requires Inv(w) && w.Pc(t).Callback? && w.Pc(t).at.Writing?
    ensures w.st.writer == Some(t) && SharedFact(w, Installing(w.Pc(t)), ResettingNow(w)) && Fenced(w, w.Pc(t).session, w.Pc(t).generation)
    ensures w.Pc(t).work != []
  {
    SharedAsFact(w);
    FineAt(w, t);
    hide SharedFact, Shared;
  }

  // The effect of one stage of a write section.
  function Effect(w: World, t: Tid): World
    requires Applying(w.Pc(t))
  {
    CallbackWrite(w, w.Pc(t).work[0], w.Pc(t).session, w.Pc(t).generation, w.Pc(t).at.stage)
  }

  predicate Stage(w: World, t: Tid, x: World) {
    Applying(w.Pc(t)) && x == Effect(w, t)
  }

  lemma EffectControl(w: World, t: Tid)
    requires Applying(w.Pc(t))
    ensures var x := Effect(w, t); SameControl(w, x) && x.mode == w.mode && x.session == w.session && x.generation == w.generation && x.phase == w.phase && x.now == w.now
  {
    hide ApplyLiveness, ApplyAnswer, ApplyNotes, ApplyLeaf, LiveModes;
  }

  // An entry that observes no Mode leaves the observations where they were.
  lemma WaterAppended(w: World, x: World, e: Entry)
    requires WaterInv(w) && x.log == w.log + [e] && !e.ModeRead? && !e.Snapshot?
    requires x.data.waterAt == w.data.waterAt && x.phase == w.phase && x.now == w.now
    ensures WaterInv(x)
  {
    Appended(w.log, e);
    hide LastController, LastStatus, LastAnswer, LastMode, ReadFrom;
  }

  // A state frame: the liveness stamp and its log entry.
  lemma HeardKept(w: World, t: Tid, frame: Frame)
    requires Applying(w.Pc(t)) && w.Pc(t).work[0] == StateFrame(frame) && w.Pc(t).at.stage == 0
    requires SharedFact(w, false, ResettingNow(w)) && w.st.writer == Some(t)
    ensures EffectPromise(w, t, Effect(w, t)) && SharedFact(Effect(w, t), false, ResettingNow(w))
  {
    var x := Effect(w, t);
    var e := Heard(w.Pc(t).session, w.Pc(t).generation, frame.retained, w.now);
    assert x.log == w.log + [e];
    Appended(w.log, e);
    LogAppend(w.log, e);
    EntryPromise(w, t, x, e);
    WaterAppended(w, x, e);
    hide WaterInv;
    hide EffectPromise, LastController, LastStatus, LastAnswer, LastMode, LogInv, EntryBacked, ReadFrom, NoSnapshotFrom, ResettingNow;
  }

  lemma LeafWater(w: World, t: Tid)
    requires Applying(w.Pc(t)) && w.Pc(t).work[0].Leaf? && w.Pc(t).at.stage == 0
    requires WaterInv(w) && PhaseInv(w) && !w.mode
    ensures WaterInv(Effect(w, t))
  {
    var Leaf(modes, retained, accepted, available) := w.Pc(t).work[0];
    Appended(w.log, ModeRead(modes, LiveModes(modes, retained, accepted, available), retained, w.Pc(t).session, w.now));
    hide LastController, LastStatus, LastAnswer, LastMode, ReadFrom;
  }

  lemma LeafKept(w: World, t: Tid)
    requires Applying(w.Pc(t)) && w.Pc(t).work[0].Leaf? && w.Pc(t).at.stage == 0
    requires SharedFact(w, false, ResettingNow(w)) && w.st.writer == Some(t) && !w.mode
    ensures EffectPromise(w, t, Effect(w, t)) && SharedFact(Effect(w, t), false, ResettingNow(w))
  {
    var x := Effect(w, t);
    var Leaf(modes, retained, accepted, available) := w.Pc(t).work[0];
    var e := ModeRead(modes, LiveModes(modes, retained, accepted, available), retained, w.Pc(t).session, w.now);
    assert x.log == w.log + [e];
    Appended(w.log, e);
    LogAppend(w.log, e);
    EntryPromise(w, t, x, e);
    LeafWater(w, t);
    hide WaterInv, LiveModes;
    hide EffectPromise, LastController, LastStatus, LastAnswer, LastMode, LogInv, EntryBacked, ReadFrom, NoSnapshotFrom, ResettingNow;
  }

  predicate HasAnswer(work: Work) { (work.StateFrame? || work.OverrideFrame?) && work.frame.answer.Some? }

  // The receipt counter moves, and the log names the frame that moved it.
  lemma AnsweredKept(w: World, t: Tid)
    requires Applying(w.Pc(t)) && HasAnswer(w.Pc(t).work[0]) && w.Pc(t).at.stage == 1
    requires SharedFact(w, false, ResettingNow(w)) && w.st.writer == Some(t) && Fenced(w, w.Pc(t).session, w.Pc(t).generation)
    ensures EffectPromise(w, t, Effect(w, t)) && SharedFact(Effect(w, t), true, ResettingNow(w))
    ensures LastStatus(Effect(w, t).log) == Some(Answered(Effect(w, t).data.receipt, w.Pc(t).session, w.Pc(t).generation,
                                                          w.Pc(t).work[0].frame.retained, w.Pc(t).work[0].frame.answer.value))
  {
    var x := Effect(w, t);
    var frame := w.Pc(t).work[0].frame;
    var e := Answered(w.data.receipt + 1, w.Pc(t).session, w.Pc(t).generation, frame.retained, frame.answer.value);
    assert x.log == w.log + [e];
    Appended(w.log, e);
    LogAppend(w.log, e);
    EntryPromise(w, t, x, e);
    WaterAppended(w, x, e);
    hide WaterInv;
    hide EffectPromise, LastController, LastStatus, LastAnswer, LastMode, LogInv, EntryBacked, ReadFrom, NoSnapshotFrom, ResettingNow;
  }

  lemma InstalledEffect(w: World, t: Tid)
    requires Applying(w.Pc(t)) && HasAnswer(w.Pc(t).work[0]) && w.Pc(t).at.stage == 2
    ensures var frame := w.Pc(t).work[0].frame; Effect(w, t) == w.(data := ApplyAnswer(w.data, frame.answer.value, frame.retained, w.now))
  {
  }

  lemma InstallFact(w: World, frame: Frame, s: nat, g: nat, resetting: bool)
    requires frame.answer.Some? && SharedFact(w, true, resetting)
    requires LastStatus(w.log) == Some(Answered(w.data.receipt, s, g, frame.retained, frame.answer.value))
    ensures SharedFact(w.(data := ApplyAnswer(w.data, frame.answer.value, frame.retained, w.now)), false, resetting)
  {
    hide LastController, LastStatus, LastAnswer, LastMode, LogInv, EntryBacked, ReadFrom, NoSnapshotFrom;
  }

  // The status of that frame is installed.
  lemma InstalledKept(w: World, t: Tid)
    requires Applying(w.Pc(t)) && HasAnswer(w.Pc(t).work[0]) && w.Pc(t).at.stage == 2
    requires SharedFact(w, true, ResettingNow(w)) && w.st.writer == Some(t)
    requires LastStatus(w.log) == Some(Answered(w.data.receipt, w.Pc(t).session, w.Pc(t).generation,
                                                w.Pc(t).work[0].frame.retained, w.Pc(t).work[0].frame.answer.value))
    ensures EffectPromise(w, t, Effect(w, t)) && SharedFact(Effect(w, t), false, ResettingNow(w))
  {
    InstalledEffect(w, t);
    InstallFact(w, w.Pc(t).work[0].frame, w.Pc(t).session, w.Pc(t).generation, ResettingNow(w));
    hide SharedFact, EffectPromise, Effect, LastStatus, ResettingNow;
    DataPromise(w, t, Effect(w, t));
  }

  // ---- banners ----

  lemma {:induction false} OthersPlain(notes: seq<Note>)
    ensures forall n :: n in Others(notes) ==> n in notes && !n.native
  {
    if notes != [] {
      OthersPlain(notes[1..]);
    }
  }

  lemma {:induction false} WithoutSubset(notes: seq<Note>, id: string)
    ensures forall n :: n in Without(notes, id) ==> n in notes
  {
    if notes != [] {
      WithoutSubset(notes[1..], id);
    }
  }

  lemma NotesOwned(w: World, work: Work, s: nat)
    requires Fenced(w, s, w.generation) && forall n :: n in w.data.notes ==> OwnedBy(n, w)
    ensures forall n :: n in ApplyNotes(w.data, work, s).notes ==> OwnedBy(n, w)
  {
    match work
    case Notice(id, native) => WithoutSubset(w.data.notes, id);
    case Platform(ids) => OthersPlain(w.data.notes);
    case _ =>
  }

  predicate Banner(work: Work) { work.Notice? || work.Platform? || work.Portal? }

  lemma NotesKept(w: World, t: Tid)
    requires Applying(w.Pc(t)) && Banner(w.Pc(t).work[0]) && w.Pc(t).at.stage == 0
    requires SharedFact(w, false, ResettingNow(w)) && w.st.writer == Some(t) && Fenced(w, w.Pc(t).session, w.Pc(t).generation)
    requires !ResettingNow(w)
    ensures EffectPromise(w, t, Effect(w, t)) && SharedFact(Effect(w, t), false, ResettingNow(w))
  {
    DataPromise(w, t, Effect(w, t));
    NotesOwned(w, w.Pc(t).work[0], w.Pc(t).session);
    hide EffectPromise, LastController, LastStatus, LastAnswer, LastMode, LogInv, EntryBacked, ReadFrom, NoSnapshotFrom, ResettingNow, LastNotes, Others, Without, Natives;
  }

  // A stage at which the work has nothing to do.
  lemma NothingKept(w: World, t: Tid)
    requires Applying(w.Pc(t)) && SharedFact(w, false, ResettingNow(w)) && Effect(w, t) == w
    ensures EffectPromise(w, t, Effect(w, t)) && SharedFact(Effect(w, t), false, ResettingNow(w))
  {
    hide SharedFact;
    StillPromise(w, t);
  }

  lemma Untouched(w: World, t: Tid)
    requires Applying(w.Pc(t))
    requires var work, stage := w.Pc(t).work[0], w.Pc(t).at.stage;
      && !(stage == 0 && (work.StateFrame? || work.Leaf? || Banner(work)))
      && !(HasAnswer(work) && 1 <= stage <= 2)
    ensures Effect(w, t) == w
  {
  }

  lemma ReaderExcludes(w: World, t: Tid)
    requires Fine(w, t) && w.Pc(t).Callback? && w.Pc(t).at.Writing? && Exclusive(w.gw)
    ensures !ResettingNow(w)
  {
    hide PcInv;
  }

  lemma InstallingIs(w: World, t: Tid)
    requires Fine(w, t) && Applying(w.Pc(t))
    ensures Installing(w.Pc(t)) <==> HasAnswer(w.Pc(t).work[0]) && w.Pc(t).at.stage == 2
    ensures Installing(w.Pc(t)) ==>
      LastStatus(w.log) == Some(Answered(w.data.receipt, w.Pc(t).session, w.Pc(t).generation,
                                         w.Pc(t).work[0].frame.retained, w.Pc(t).work[0].frame.answer.value))
  {
    hide LastStatus;
  }

  // One write of a callback keeps every shared fact, and its promise to the others.
  lemma WriteKept(w: World, t: Tid)
    requires Inv(w) && Applying(w.Pc(t))
    ensures var pc, x := w.Pc(t), Effect(w, t); var installs := HasAnswer(pc.work[0]) && pc.at.stage == 1;
      && EffectPromise(w, t, x) && SharedFact(x, installs, ResettingNow(w))
      && (installs ==> LastStatus(x.log) == Some(Answered(x.data.receipt, pc.session, pc.generation, pc.work[0].frame.retained, pc.work[0].frame.answer.value)))
  {
    InvFine(w, t);
    FactOf(w, t);
    InstallingIs(w, t);
    assert Exclusive(w.gw);
    ReaderExcludes(w, t);
    hide SharedFact, EffectPromise, Inv, LastStatus, Fine, Effect, Installing, ResettingNow, Fenced, Exclusive;
    var work, stage := w.Pc(t).work[0], w.Pc(t).at.stage;
    if stage == 0 && work.StateFrame? {
      HeardKept(w, t, work.frame);
    } else if stage == 0 && work.Leaf? {
      LeafKept(w, t);
    } else if stage == 0 && Banner(work) {
      NotesKept(w, t);
    } else if stage == 1 && HasAnswer(work) {
      AnsweredKept(w, t);
    } else if stage == 2 && HasAnswer(work) {
      InstalledKept(w, t);
    } else {
      Untouched(w, t);
      NothingKept(w, t);
    }
  }

  lemma WriteKnows(w: World, t: Tid, again: bool)
    requires Fine(w, t) && Applying(w.Pc(t)) && SameControl(w, Effect(w, t))
    requires var x := Effect(w, t); x.mode == w.mode && x.session == w.session && x.generation == w.generation
    requires var pc, x := w.Pc(t), Effect(w, t);
      HasAnswer(pc.work[0]) && pc.at.stage == 1 ==>
        LastStatus(x.log) == Some(Answered(x.data.receipt, pc.session, pc.generation, pc.work[0].frame.retained, pc.work[0].frame.answer.value))
    ensures var m := CallbackMove(w, w.Pc(t), again);
      && PcInv(Effect(w, t), t, m.pc) && StWrite(w.Pc(t))
      && (Installing(m.pc) <==> HasAnswer(w.Pc(t).work[0]) && w.Pc(t).at.stage == 1)
      && !GwWrite(w.Pc(t)) && !GwWrite(m.pc)
  {
    hide LastStatus, Effect;
  }

  lemma CallbackWrites(w: World, t: Tid, w': World, again: bool)
    requires Inv(w) && CallbackStep(w, t, w', again) && Applying(w.Pc(t))
    ensures Inv(w')
  {
    InvFine(w, t);
    CallbackFits(w, t, again);
    EffectControl(w, t);
    WriteKept(w, t);
    WriteKnows(w, t, again);
    hide Inv, MoveFits, PcInv, Fine, Installing, Resetting, CallbackMove, CallbackWrite, SharedFact, EffectPromise, StWrite, GwWrite, LastStatus;
    Preserved(w, Effect(w, t), t, CallbackMove(w, w.Pc(t), again));
  }

  // ---- session changes, switches and gateway callbacks ----

  lemma SourceFits(w: World, t: Tid)
    requires SourceMove(w.Pc(t)).Some?
    ensures MoveFits(w.Pc(t), SourceMove(w.Pc(t)).value)
    ensures SameControl(w, SourceEffect(w, w.Pc(t)))
    ensures !Installing(w.Pc(t)) && !Installing(SourceMove(w.Pc(t)).value.pc)
  {
  }

  lemma SourceKnows(w: World, t: Tid)
    requires Fine(w, t) && SourceMove(w.Pc(t)).Some?
    ensures PcInv(SourceEffect(w, w.Pc(t)), t, SourceMove(w.Pc(t)).value.pc)
  {
  }

  lemma SnapshotPromise(w: World, t: Tid)
    requires Fine(w, t) && PhaseInv(w) && w.Pc(t).ApplyLocked?
    ensures EffectPromise(w, t, SourceEffect(w, w.Pc(t)))
  {
    hide LastController, LastStatus, LastAnswer, LastMode, EffectPromise;
    EntryPromise(w, t, SourceEffect(w, w.Pc(t)), Snapshot(w.Pc(t).snap, w.now));
  }

  lemma SourcePromise(w: World, t: Tid)
    requires Fine(w, t) && PhaseInv(w) && SourceMove(w.Pc(t)).Some? && Can(w.st, SourceMove(w.Pc(t)).value.st)
    ensures EffectPromise(w, t, SourceEffect(w, w.Pc(t)))
  {
    hide LastController, LastStatus, LastAnswer, LastMode, EntryBacked;
    if w.Pc(t).ApplyLocked? {
      SnapshotPromise(w, t);
    }
  }

  lemma SnapshotFact(w: World, snap: GatewayState, resetting: bool)
    requires SharedFact(w, false, resetting) && w.phase.Live?
    ensures SharedFact(w.(data := ApplySnapshot(w.data, snap, w.now)).Log(Snapshot(snap, w.now)), false, resetting)
  {
    var e := Snapshot(snap, w.now);
    Appended(w.log, e);
    LogAppend(w.log, e);
    hide LastController, LastStatus, LastAnswer, LastMode, LogInv, EntryBacked, ReadFrom, NoSnapshotFrom;
  }

  lemma SwitchFact(w: World, t: Tid, installing: bool, resetting: bool)
    requires SharedFact(w, installing, resetting) && Fine(w, t) && SourceMove(w.Pc(t)).Some?
    requires w.Pc(t).AdvanceLocked? || w.Pc(t).SwitchLocked? || w.Pc(t).StatusBump?
    requires w.Pc(t).AdvanceLocked? ==> !resetting
    ensures SharedFact(SourceEffect(w, w.Pc(t)), installing, if w.Pc(t).StatusBump? then resetting else Resetting(SourceMove(w.Pc(t)).value.pc, SourceEffect(w, w.Pc(t)).mode))
  {
    hide LastController, LastStatus, LastAnswer, LastMode, LogInv, EntryBacked, ReadFrom, NoSnapshotFrom;
  }

  lemma ClearFact(w: World, t: Tid, resetting: bool)
    requires SharedFact(w, false, resetting) && Fine(w, t) && SourceMove(w.Pc(t)).Some?
    requires w.Pc(t).SwitchClearing? || w.Pc(t).StatusClear?
    ensures SharedFact(SourceEffect(w, w.Pc(t)), false, resetting)
  {
    hide LastController, LastStatus, LastAnswer, LastMode, LogInv, EntryBacked, ReadFrom, NoSnapshotFrom;
  }

  lemma BannersFact(w: World, t: Tid)
    requires SharedFact(w, false, ResettingNow(w)) && Fine(w, t)
    requires w.Pc(t).SwitchSet? || w.Pc(t).AdvanceBumped?
    ensures SharedFact(SourceEffect(w, w.Pc(t)), false, false)
  {
    OthersPlain(w.data.notes);
    hide LastController, LastStatus, LastAnswer, LastMode, LogInv, EntryBacked, ReadFrom, NoSnapshotFrom;
  }

  // The moves that change nothing shared.
  predicate Plainly(pc: Pc) {
    pc.AdvanceReset? || pc.SwitchReset? || pc.SwitchClear? || pc.ApplyWaiting? || pc.ApplyDone?
  }

  lemma SourceKept(w: World, t: Tid, w': World)
    requires Inv(w) && SourceStep(w, t, w')
    ensures Inv(w')
  {
    var pc := w.Pc(t);
    var m := SourceMove(pc).value;
    InvFine(w, t);
    SourceFits(w, t);
    SourceKnows(w, t);
    SharedAsFact(w);
    NotInstalling(w, t);
    if Plainly(pc) {
      Still(w, t, m);
    } else {
      SourcePhase(w);
      SourcePromise(w, t);
      SourceFact(w, t);
      hide Inv, MoveFits, PcInv, Fine, Installing, Resetting, SharedFact, EffectPromise, LastStatus, SourceEffect, SourceMove, StWrite, GwWrite;
      Preserved(w, SourceEffect(w, pc), t, m);
    }
  }

  lemma SourcePhase(w: World)
    requires Inv(w)
    ensures PhaseInv(w) && Shared(w)
  {
  }

  lemma NotInstalling(w: World, t: Tid)
    requires Fine(w, t) && SourceMove(w.Pc(t)).Some?
    ensures StWrite(w.Pc(t)) || w.st.Free() ==> !InstallingNow(w)
  {
    hide PcInv;
  }

  lemma NotResetting(w: World, t: Tid)
    requires Fine(w, t) && w.Pc(t).AdvanceLocked?
    ensures !ResettingNow(w)
  {
    hide PcInv;
  }

  lemma SourceFact(w: World, t: Tid)
    requires SharedFact(w, InstallingNow(w), ResettingNow(w)) && Fine(w, t) && SourceMove(w.Pc(t)).Some? && !Plainly(w.Pc(t))
    requires Can(w.st, SourceMove(w.Pc(t)).value.st) && (StWrite(w.Pc(t)) || w.st.Free() ==> !InstallingNow(w))
    ensures var pc := w.Pc(t); var m, x := SourceMove(pc).value, SourceEffect(w, pc);
      SharedFact(x, if StWrite(pc) || StWrite(m.pc) then Installing(m.pc) else InstallingNow(w),
                    if GwWrite(pc) || GwWrite(m.pc) then Resetting(m.pc, x.mode) else if x.mode == w.mode then ResettingNow(w) else true)
  {
    var pc := w.Pc(t);
    hide SharedFact, InstallingNow, ResettingNow;
    if pc.AdvanceLocked? || pc.SwitchLocked? || pc.StatusBump? {
      if pc.AdvanceLocked? { NotResetting(w, t); }
      SwitchFact(w, t, InstallingNow(w), ResettingNow(w));
    } else if pc.SwitchClearing? || pc.StatusClear? {
      ClearFact(w, t, ResettingNow(w));
    } else if pc.ApplyLocked? {
      SnapshotFact(w, pc.snap, ResettingNow(w));
    } else {
      BannersFact(w, t);
    }
  }

  // ---- commands ----

  lemma CommandFits(w: World, t: Tid, go: bool)
    requires w.Pc(t).Run?
    ensures var m := CommandMove(w, w.Pc(t), go); MoveFits(w.Pc(t), m) && !StWrite(w.Pc(t)) && !StWrite(m.pc) && !GwWrite(w.Pc(t)) && !GwWrite(m.pc)
    ensures SameControl(w, CommandEffect(w, t, w.Pc(t)))
  {
    EffectSameControl(w, t);
    hide ReadyFor, Acknowledged, SameControl, CommandEffect;
  }

  lemma EffectSameControl(w: World, t: Tid)
    requires w.Pc(t).Run?
    ensures SameControl(w, CommandEffect(w, t, w.Pc(t)))
  {
    hide Acknowledged;
  }

  // The newest answer lies after the dispatch, and nothing later sets the status.
  lemma {:induction false} NewestAfter(log: seq<Entry>, f: nat, r: nat) returns (k: nat)
    requires f <= |log| && LastAnswer(log).Some? && LastAnswer(log).value.receipt > r
    requires forall i :: 0 <= i < f && log[i].Answered? ==> log[i].receipt <= r
    requires forall i :: f <= i < |log| ==> !log[i].Snapshot?
    ensures f <= k < |log| && LastStatus(log) == LastAnswer(log) == Some(log[k])
    ensures forall i :: k < i < |log| ==> !SetsStatus(log[i])
    decreases |log|
  {
    var n := |log| - 1;
    if log[n].Answered? {
      k := n;
    } else {
      if n < f {
        OlderAnswers(log, r);
      } else {
        assert log[..n][..f] == log[..f];
        k := NewestAfter(log[..n], f, r);
      }
    }
  }

  lemma {:induction false} OlderAnswers(log: seq<Entry>, r: nat)
    requires forall i :: 0 <= i < |log| && log[i].Answered? ==> log[i].receipt <= r
    ensures LastAnswer(log).Some? ==> LastAnswer(log).value.receipt <= r
    decreases |log|
  {
    if log != [] && !log[|log| - 1].Answered? {
      OlderAnswers(log[..|log| - 1], r);
    }
  }

  // What goes out is backed by the newest observation.
  lemma SendBacked(w: World, t: Tid)
    requires Fine(w, t) && w.Pc(t).Run? && w.Pc(t).step.Ready? && PhaseInv(w) && ControllerInv(w) && WaterInv(w)
    ensures var pc := w.Pc(t); SentBacked(w.log, Sent(pc.command, pc.session, pc.generation, pc.checkedAt, pc.receipt, w.phase, t))
  {
    hide LastController, LastMode, LastStatus, ReadFrom;
    var pc := w.Pc(t);
    if pc.command.Water? && w.phase.Disabling? && ReadFrom(w.log, w.phase.since, pc.command.device) {
      ReadIsLast(w.log, w.phase.since, pc.command.device);
    }
  }

  lemma ConfirmBacked(w: World, t: Tid)
    requires Fine(w, t) && w.Pc(t).Run? && w.Pc(t).step.AckNewer? && StatusFact(w, false)
    requires Acknowledged(w.data.status, w.Pc(t).command.payload) == Some(true)
    ensures var pc := w.Pc(t); ConfirmedBacked(w.log, Confirmed(pc.command.payload, pc.session, pc.generation, pc.receipt, t))
  {
    var pc := w.Pc(t);
    assert Since(w, t, pc.command, pc.session, pc.generation, pc.receipt, pc.checkedAt, pc.from);
    hide LastStatus, LastAnswer, Acknowledged;
    var k := NewestAfter(w.log, pc.from, pc.receipt);
    assert ConfirmedBy(w.log, Confirmed(pc.command.payload, pc.session, pc.generation, pc.receipt, t), pc.from, k);
  }

  // The entry a command step logs, if any.
  function CommandEntry(w: World, t: Tid, pc: Pc): Option<Entry>
    requires pc.Run?
  {
    if pc.step.Ready? then Some(Sent(pc.command, pc.session, pc.generation, pc.checkedAt, pc.receipt, w.phase, t))
    else if pc.step.AckNewer? && pc.command.Override? && Acknowledged(w.data.status, pc.command.payload) == Some(true) then
      Some(Confirmed(pc.command.payload, pc.session, pc.generation, pc.receipt, t))
    else None
  }

  lemma CommandBacked(w: World, t: Tid)
    requires Fine(w, t) && w.Pc(t).Run? && CommandEntry(w, t, w.Pc(t)).Some? && Exclusive(w.st)
    requires SharedFact(w, InstallingNow(w), ResettingNow(w))
    ensures EntryBacked(w.log, CommandEntry(w, t, w.Pc(t)).value)
  {
    if w.Pc(t).step.Ready? {
      SendBacked(w, t);
    } else {
      ReaderAlone(w, t);
      ConfirmBacked(w, t);
    }
  }

  lemma ReaderAlone(w: World, t: Tid)
    requires Fine(w, t) && StRead(w.Pc(t)) && Exclusive(w.st)
    ensures !InstallingNow(w)
  {
    hide PcInv;
  }

  lemma CommandLogs(w: World, t: Tid, x: World, e: Entry, installing: bool, resetting: bool)
    requires x == w.Log(e) && (e.Sent? || e.Confirmed?) && e.actor == t && EntryBacked(w.log, e) && SharedFact(w, installing, resetting)
    ensures EffectPromise(w, t, x) && SharedFact(x, installing, resetting)
  {
    Appended(w.log, e);
    LogAppend(w.log, e);
    assert NewEntry(w, t, e);
    WaterAppended(w, x, e);
    hide WaterInv;
    hide LastController, LastStatus, LastAnswer, LastMode, EntryBacked, LogInv, NewEntry;
  }

  lemma CommandKept(w: World, t: Tid)
    requires Fine(w, t) && w.Pc(t).Run? && SharedFact(w, InstallingNow(w), ResettingNow(w)) && Exclusive(w.st)
    ensures EffectPromise(w, t, CommandEffect(w, t, w.Pc(t))) && SharedFact(CommandEffect(w, t, w.Pc(t)), InstallingNow(w), ResettingNow(w))
  {
    hide SharedFact, EffectPromise, InstallingNow, ResettingNow, Fine, Exclusive;
    var entry := CommandEntry(w, t, w.Pc(t));
    if entry.Some? {
      CommandBacked(w, t);
      CommandLogs(w, t, CommandEffect(w, t, w.Pc(t)), entry.value, InstallingNow(w), ResettingNow(w));
    } else {
      StillPromise(w, t);
    }
  }

  lemma DispatchSince(w: World, x: World, t: Tid, pc: Pc, e: Entry)
    requires pc.Run? && e.Sent? && e == Sent(pc.command, pc.session, pc.generation, pc.checkedAt, pc.receipt, e.phase, t) && x == w.Log(e)
    requires Fenced(w, pc.session, pc.generation) && pc.receipt == w.data.receipt
    requires forall i :: 0 <= i < |w.log| && w.log[i].Answered? ==> w.log[i].receipt <= w.data.receipt
    ensures Since(x, t, pc.command, pc.session, pc.generation, pc.receipt, pc.checkedAt, |w.log| + 1)
  {
  }

  lemma ConfirmSince(w: World, x: World, t: Tid, pc: Pc, e: Entry)
    requires pc.Run? && e.Confirmed? && x == w.Log(e) && Since(w, t, pc.command, pc.session, pc.generation, pc.receipt, pc.checkedAt, pc.from)
    ensures Since(x, t, pc.command, pc.session, pc.generation, pc.receipt, pc.checkedAt, pc.from)
  {
  }

  lemma CommandKnowsBefore(w: World, t: Tid, go: bool)
    requires Fine(w, t) && w.Pc(t).Run? && !Dispatched(w.Pc(t).step) && !w.Pc(t).step.Ready?
    ensures CommandEffect(w, t, w.Pc(t)) == w && PcInv(w, t, CommandMove(w, w.Pc(t), go).pc)
  {
    hide Since, LastStatus;
  }

  lemma CommandKnowsAfter(w: World, t: Tid, go: bool)
    requires Fine(w, t) && w.Pc(t).Run? && Dispatched(w.Pc(t).step) && CommandEffect(w, t, w.Pc(t)) == w
    ensures PcInv(w, t, CommandMove(w, w.Pc(t), go).pc)
  {
    hide Since, LastStatus, CommandEffect, Acknowledged;
  }

  lemma CommandKnowsSent(w: World, t: Tid, go: bool)
    requires Fine(w, t) && w.Pc(t).Run? && w.Pc(t).step.Ready? && StatusFact(w, InstallingNow(w))
    ensures PcInv(CommandEffect(w, t, w.Pc(t)), t, CommandMove(w, w.Pc(t), go).pc)
  {
    hide LastStatus, LastAnswer, StatusFrom, InstallingNow;
    var pc := w.Pc(t);
    DispatchSince(w, CommandEffect(w, t, pc), t, pc, Sent(pc.command, pc.session, pc.generation, pc.checkedAt, pc.receipt, w.phase, t));
    hide Since;
  }

  lemma CommandKnowsConfirmed(w: World, t: Tid, go: bool)
    requires Fine(w, t) && w.Pc(t).Run? && w.Pc(t).step.AckNewer? && CommandEffect(w, t, w.Pc(t)) != w
    ensures PcInv(CommandEffect(w, t, w.Pc(t)), t, CommandMove(w, w.Pc(t), go).pc)
  {
    hide LastStatus, LastAnswer, StatusFrom, Acknowledged;
    var pc := w.Pc(t);
    ConfirmSince(w, CommandEffect(w, t, pc), t, pc, Confirmed(pc.command.payload, pc.session, pc.generation, pc.receipt, t));
    hide Since;
  }

  lemma CommandKnows(w: World, t: Tid, go: bool)
    requires Fine(w, t) && w.Pc(t).Run? && StatusFact(w, InstallingNow(w))
    ensures PcInv(CommandEffect(w, t, w.Pc(t)), t, CommandMove(w, w.Pc(t), go).pc)
  {
    hide StatusFact, PcInv, InstallingNow, Fine, CommandMove;
    if w.Pc(t).step.Ready? {
      CommandKnowsSent(w, t, go);
    } else if !Dispatched(w.Pc(t).step) {
      CommandKnowsBefore(w, t, go);
    } else if CommandEffect(w, t, w.Pc(t)) == w {
      CommandKnowsAfter(w, t, go);
    } else {
      CommandKnowsConfirmed(w, t, go);
    }
  }

  lemma CommandStepKept(w: World, t: Tid, w': World, go: bool)
    requires Inv(w) && CommandStep(w, t, w', go)
    ensures Inv(w')
  {
    InvFine(w, t);
    SharedAsFact(w);
    assert Exclusive(w.st) && Shared(w);
    hide Shared;
    CommandFits(w, t, go);
    CommandKept(w, t);
    StatusPart(w);
    CommandKnows(w, t, go);
    EffectMode(w, t, w.Pc(t));
    hide Inv, MoveFits, PcInv, Fine, Installing, Resetting, SharedFact, EffectPromise, CommandEffect, CommandMove, StWrite, GwWrite, Exclusive, StatusFact;
    Preserved(w, CommandEffect(w, t, w.Pc(t)), t, CommandMove(w, w.Pc(t), go));
  }

  lemma StatusPart(w: World)
    requires SharedFact(w, InstallingNow(w), ResettingNow(w))
    ensures StatusFact(w, InstallingNow(w))
  {
  }

  lemma EffectMode(w: World, t: Tid, pc: Pc)
    requires pc.Run?
    ensures CommandEffect(w, t, pc).mode == w.mode
  {
  }

  // ---- beginnings ----

  lemma IdleFits(w: World, t: Tid, m: Move)
    requires w.Pc(t).Idle? && m.st == Keep && !StRead(m.pc) && !StWrite(m.pc) && !GwRead(m.pc)
    requires m.gw == (if GwWrite(m.pc) then Take else m.gw) && (m.gw == Take ==> GwWrite(m.pc)) && (m.gw.Take? || m.gw.Keep? || m.gw.Touch?)
    ensures MoveFits(w.Pc(t), m)
  {
  }

  // Moving to another phase of the hand-over, or flipping the gateway's health flag.
  lemma PhaseFact(w: World, x: World, installing: bool, resetting: bool)
    requires SharedFact(w, installing, resetting) && x == w.(phase := x.phase, connected := x.connected)
    requires x.phase == w.phase || (w.phase.Mqtt? && x.phase.Enabling?) || (w.phase.Joined? && x.phase.Disabling? && x.phase.since == |w.log|)
    ensures SharedFact(x, installing, resetting)
  {
    hide LastController, LastStatus, LastAnswer, LastMode, LogInv, EntryBacked, ReadFrom;
  }

  lemma PhasePromise(w: World, t: Tid, x: World)
    requires x == w.(phase := x.phase, connected := x.connected)
    requires x.phase == w.phase || (w.phase.Mqtt? && x.phase.Enabling?) || (w.phase.Joined? && x.phase.Disabling? && x.phase.since == |w.log|)
    ensures EffectPromise(w, t, x)
  {
  }

  lemma Begun(w: World, x: World, t: Tid, m: Move)
    requires Inv(w) && w.Pc(t).Idle? && x == w.(phase := x.phase, connected := x.connected)
    requires x.phase == w.phase || (w.phase.Mqtt? && x.phase.Enabling?) || (w.phase.Joined? && x.phase.Disabling? && x.phase.since == |w.log|)
    requires m.st == Keep && !StRead(m.pc) && !StWrite(m.pc) && !GwRead(m.pc) && !Resetting(m.pc, w.mode)
    requires if GwWrite(m.pc) then m.gw == Take else m.gw == Keep || m.gw == Touch
    requires Can(w.gw, m.gw) && PcInv(x, t, m.pc)
    ensures Inv(x.Make(t, m))
  {
    IdleFits(w, t, m);
    PhasePromise(w, t, x);
    SharedAsFact(w);
    PhaseFact(w, x, InstallingNow(w), ResettingNow(w));
    hide SharedFact, EffectPromise, PcInv, AllFine, Shared, GwRead, StRead, GwWrite, StWrite, Installing, Resetting, MoveFits, Fine;
    Preserved(w, x, t, m);
  }

  lemma CallbackBegun(w: World, t: Tid, work: seq<Work>, s: nat)
    requires Inv(w) && w.Pc(t).Idle? && s <= w.session
    ensures Inv(w.Make(t, Move(Keep, Keep, Callback(work, s, 0, Bound))))
  {
    hide Inv;
    Begun(w, w, t, Move(Keep, Keep, Callback(work, s, 0, Bound)));
  }

  lemma CommandBegun(w: World, t: Tid, command: Command)
    requires Inv(w) && w.Pc(t).Idle?
    ensures Inv(w.Make(t, Move(Keep, Keep, Run(command, 0, 0, 0, 0, 0, Begin))))
  {
    hide Inv;
    Begun(w, w, t, Move(Keep, Keep, Run(command, 0, 0, 0, 0, 0, Begin)));
  }

  lemma BeginWorkKept(w: World, t: Tid, w': World)
    requires Inv(w) && w.Pc(t).Idle? && BeginWork(w, t, w')
    ensures Inv(w')
  {
    hide Inv;
    if work: seq<Work>, s: nat :| s <= w.session && w' == w.Make(t, Move(Keep, Keep, Callback(work, s, 0, Bound))) {
      CallbackBegun(w, t, work, s);
    } else {
      var command: Command :| w' == w.Make(t, Move(Keep, Keep, Run(command, 0, 0, 0, 0, 0, Begin)));
      CommandBegun(w, t, command);
    }
  }

  lemma BeginGatewayKept(w: World, t: Tid, w': World)
    requires Inv(w) && w.Pc(t).Idle? && BeginGateway(w, t, w')
    ensures Inv(w')
  {
    hide Inv;
    if snap: GatewayState :| w' == w.Make(t, Move(Keep, Keep, ApplyWaiting(snap))) {
      Begun(w, w, t, Move(Keep, Keep, ApplyWaiting(snap)));
    } else {
      Begun(w, w.(connected := !w.connected), t, Move(Touch, Keep, StatusBump(!w.connected)));
    }
  }

  lemma BeginSourceKept(w: World, t: Tid, w': World)
    requires Inv(w) && w.Pc(t).Idle? && BeginSource(w, t, w')
    ensures Inv(w')
  {
    hide Inv;
    if w' == w.Make(t, Move(Take, Keep, AdvanceLocked)) {
      Begun(w, w, t, Move(Take, Keep, AdvanceLocked));
    } else if w.phase.Mqtt? {
      Begun(w, w.(phase := Enabling(t)), t, Move(Take, Keep, SwitchLocked(true)));
    } else {
      Begun(w, w.(phase := Disabling(t, |w.log|)), t, Move(Take, Keep, SwitchLocked(false)));
    }
  }

  lemma BeginKept(w: World, t: Tid, w': World)
    requires Inv(w) && BeginStep(w, t, w')
    ensures Inv(w')
  {
    hide Inv, BeginWork, BeginGateway, BeginSource;
    if BeginWork(w, t, w') {
      BeginWorkKept(w, t, w');
    } else if BeginGateway(w, t, w') {
      BeginGatewayKept(w, t, w');
    } else {
      BeginSourceKept(w, t, w');
    }
  }

  // ---- the environment ----

  lemma WorldControl(w: World, c: Event)
    ensures var w' := Happens(w, c); w'.gw == w.gw && w'.st == w.st && w'.threads == w.threads && w'.log == w.log && w'.mode == w.mode && w'.session == w.session
  {
  }

  lemma WorldPromise(w: World, c: Event, t: Tid)
    requires May(w, c) && Exclusive(w.gw) && Exclusive(w.st)
    ensures Promise(w, t, Happens(w, c))
  {
    hide LastController, LastStatus, LastAnswer, LastMode, Exclusive, NewEntry, Quiet;
    WorldControl(w, c);
  }

  lemma WorldFine(w: World, c: Event)
    requires May(w, c) && Exclusive(w.gw) && Exclusive(w.st) && AllFine(w) && PhaseInv(w)
    ensures AllFine(Happens(w, c))
  {
    hide Promise, Fine, PhaseInv, Exclusive, May, Happens;
    var w' := Happens(w, c);
    forall u: Tid ensures Fine(w', u) {
      WorldPromise(w, c, u + 1);
      assert Fine(w, u);
      if w.Pc(u).Callback? {
        KeepsCallback(w, u + 1, w', u);
      } else if w.Pc(u).Run? {
        KeepsRun(w, u + 1, w', u);
      } else {
        KeepsOther(w, u + 1, w', u);
      }
    }
  }

  lemma FreeInstalls(w: World)
    ensures w.st.Free() ==> !InstallingNow(w)
  {
  }

  lemma WorldFact(w: World, c: Event, installing: bool, resetting: bool)
    requires May(w, c) && SharedFact(w, installing, resetting) && (w.st.Free() ==> !installing)
    ensures SharedFact(Happens(w, c), installing, resetting)
  {
    hide LastController, LastStatus, LastAnswer, LastMode, LogInv, EntryBacked, ReadFrom, NoSnapshotFrom, Quiet, LiveController, LiveMode;
    match c
    case Clock(later) =>
    case Connection =>
    case GatewayStarts =>
    case GatewayJoined =>
    case Publisher =>
    case PushReset =>
    case Expiry =>
    case EmptySnapshot =>
    case Overlay(on) =>
  }

  lemma WorldKept(w: World, c: Event)
    requires Inv(w) && May(w, c)
    ensures Inv(Happens(w, c))
  {
    var w' := Happens(w, c);
    WorldControl(w, c);
    SharedAsFact(w);
    SharedAsFact(w');
    SourcePhase(w);
    FreeInstalls(w);
    WorldFact(w, c, InstallingNow(w), ResettingNow(w));
    hide May, Happens, SharedFact, Shared, AllFine, Installing, Resetting;
    WorldFine(w, c);
  }

  // ---- runs ----

  lemma WorldStepKept(w: World, w': World)
    requires Inv(w) && WorldStep(w, w')
    ensures Inv(w')
  {
    hide Inv, May, Happens;
    var c: Event :| May(w, c) && w' == Happens(w, c);
    WorldKept(w, c);
  }

  lemma GoroutineKept(w: World, t: Tid, w': World)
    requires Inv(w) && GoroutineStep(w, t, w')
    ensures Inv(w')
  {
    hide Inv, BeginStep, CommandMove, CallbackMove, SourceMove, SourceEffect, CommandEffect, CallbackWrite;
    if CallbackStep(w, t, w', false) {
      if Applying(w.Pc(t)) { CallbackWrites(w, t, w', false); } else { CallbackStill(w, t, w', false); }
    } else if CallbackStep(w, t, w', true) {
      if Applying(w.Pc(t)) { CallbackWrites(w, t, w', true); } else { CallbackStill(w, t, w', true); }
    } else if SourceStep(w, t, w') {
      SourceKept(w, t, w');
    } else if CommandStep(w, t, w', false) {
      CommandStepKept(w, t, w', false);
    } else if CommandStep(w, t, w', true) {
      CommandStepKept(w, t, w', true);
    } else {
      BeginKept(w, t, w');
    }
  }

  // The invariant is inductive.
  lemma StepKept(w: World, who: Option<Tid>, w': World)
    requires Inv(w) && Step(w, who, w')
    ensures Inv(w')
  {
    hide Inv, GoroutineStep, WorldStep;
    match who
    case Some(t) => GoroutineKept(w, t, w');
    case None => WorldStepKept(w, w');
  }

  lemma InitialInv(w: World)
    requires Initial(w)
    ensures Inv(w)
  {
  }
}
