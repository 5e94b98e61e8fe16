// Every step of every goroutine keeps the invariant.
module MqttPreserve {
  import opened Wrappers
  import opened MqttMachine
  import opened MqttInvariant

  // ---- locks ----

  // The operation fits what t holds before and after.
  predicate Fits(op: LockOp, readBefore: bool, writeBefore: bool, readAfter: bool, writeAfter: bool) {
    match op
    case Enter => !readBefore && !writeBefore && readAfter && !writeAfter
    case Leave => readBefore && !writeBefore && !readAfter && !writeAfter
    case Take => !readBefore && !writeBefore && !readAfter && writeAfter
    case Drop => writeBefore && !readBefore && !readAfter && !writeAfter
    case _ => readAfter == readBefore && writeAfter == writeBefore
  }

  lemma LockKept(lock: Lock, op: LockOp, t: Tid, rb: bool, wb: bool, ra: bool, wa: bool)
    requires Exclusive(lock) && Can(lock, op) && Member(lock, t, rb, wb) && Fits(op, rb, wb, ra, wa)
    ensures var lock' := Do(lock, op, t); Exclusive(lock') && Member(lock', t, ra, wa) && forall u :: u != t ==> SameMember(lock, lock', u)
  {
  }

  predicate MoveFits(pc: Pc, m: Move) {
    && Fits(m.gw, GwRead(pc), GwWrite(pc), GwRead(m.pc), GwWrite(m.pc))
    && Fits(m.st, StRead(pc), StWrite(pc), StRead(m.pc), StWrite(m.pc))
  }

  // x differs from w only in what t's section changed, not in locks or goroutines.
  predicate SameControl(w: World, x: World) {
    x.gw == w.gw && x.st == w.st && x.threads == w.threads
  }

  lemma MakeLocks(w: World, x: World, t: Tid, m: Move)
    requires SameControl(w, x) && Exclusive(w.gw) && Exclusive(w.st) && Fine(w, t)
    requires Can(w.gw, m.gw) && Can(w.st, m.st) && MoveFits(w.Pc(t), m)
    ensures var w' := x.Make(t, m);
      && Exclusive(w'.gw) && Exclusive(w'.st) && w'.Pc(t) == m.pc
      && (forall u :: u != t ==> w'.Pc(u) == w.Pc(u) && SameMember(w.gw, w'.gw, u) && SameMember(w.st, w'.st, u))
      && Member(w'.gw, t, GwRead(m.pc), GwWrite(m.pc)) && Member(w'.st, t, StRead(m.pc), StWrite(m.pc))
      && w' == x.(gw := w'.gw, st := w'.st, threads := w'.threads)
  {
    hide PcInv, GwRead, GwWrite, StRead, StWrite, Do, Can, Fits, Member, SameMember, Exclusive;
    var pc := w.Pc(t);
    LockKept(w.gw, m.gw, t, GwRead(pc), GwWrite(pc), GwRead(m.pc), GwWrite(m.pc));
    LockKept(w.st, m.st, t, StRead(pc), StWrite(pc), StRead(m.pc), StWrite(m.pc));
  }

  // The conjuncts of Promise about the shared state, for the effect x of t's section.
  ghost predicate EffectPromise(w: World, t: Tid, x: World) {
    && w.session <= x.session && w.generation <= x.generation && w.now <= x.now
    && (x.mode != w.mode ==> x.generation > w.generation && (SwitchedBy(w.phase, true, t) || SwitchedBy(w.phase, false, t)))
    && ((x.mode == w.mode && x.session == w.session) || w.gw.writer == Some(t))
    && (x.generation == w.generation || Alone(w.gw, t) || w.mode)
    && (x.log == w.log || exists e :: x.log == w.log + [e] && NewEntry(w, t, e))
    && ((x.data == w.data && SameReading(w.log, x.log)) || Alone(w.st, t))
    && (x.phase == w.phase
        || (!w.phase.Enabling? && !w.phase.Disabling? && (w.phase.Live? ==> Quiet(w)))
        || (w.phase.Enabling? && w.phase.tid == t) || (w.phase.Disabling? && w.phase.tid == t))
  }

  predicate SameShared(a: World, b: World) {
    && a.mode == b.mode && a.session == b.session && a.generation == b.generation && a.phase == b.phase && a.now == b.now
    && a.data == b.data && a.log == b.log
  }

  // What t knows afterwards depends on the shared state alone.
  lemma PcInvShared(a: World, b: World, t: Tid, pc: Pc)
    requires SameShared(a, b)
    ensures PcInv(a, t, pc) <==> PcInv(b, t, pc)
  {
    hide LastStatus, ReadyFor;
  }

  lemma Made(w: World, x: World, t: Tid, m: Move)
    requires SameControl(w, x) && Exclusive(w.gw) && Exclusive(w.st) && AllFine(w) && PhaseInv(w)
    requires Can(w.gw, m.gw) && Can(w.st, m.st) && MoveFits(w.Pc(t), m)
    requires EffectPromise(w, t, x) && PcInv(x, t, m.pc)
    ensures var w' := x.Make(t, m); Exclusive(w'.gw) && Exclusive(w'.st) && AllFine(w') && SameShared(x, w')
    ensures var w' := x.Make(t, m); w'.Pc(t) == m.pc && Member(w'.st, t, StRead(m.pc), StWrite(m.pc)) && Member(w'.gw, t, GwRead(m.pc), GwWrite(m.pc))
    ensures var w' := x.Make(t, m); forall u :: u != t ==> w'.Pc(u) == w.Pc(u) && SameMember(w.gw, w'.gw, u) && SameMember(w.st, w'.st, u)
  {
    hide PcInv, MoveFits, SameReading, NewEntry, GwRead, GwWrite, StRead, StWrite, Can, Do, PhaseInv, AllFine, Exclusive, Member, Fine;
    var w' := x.Make(t, m);
    FineAt(w, t);
    MakeLocks(w, x, t, m);
    PcInvShared(x, w', t, m.pc);
    FineFrom(w', t);
    Keeps(w, t, w');
  }

  lemma FineAt(w: World, t: Tid)
    requires AllFine(w)
    ensures Fine(w, t)
  {
  }

  lemma FineFrom(w: World, t: Tid)
    requires Member(w.gw, t, GwRead(w.Pc(t)), GwWrite(w.Pc(t))) && Member(w.st, t, StRead(w.Pc(t)), StWrite(w.Pc(t))) && PcInv(w, t, w.Pc(t))
    ensures Fine(w, t)
  {
  }

  // ---- shared facts ----

  // The same facts with the two exceptions spelled out, so that they speak of the effect alone.
  ghost predicate StatusFact(w: World, installing: bool) {
    && (w.data.receipt > 0 ==> LastAnswer(w.log).Some? && LastAnswer(w.log).value.receipt == w.data.receipt)
    && (w.data.status.Some? && !installing ==> StatusFrom(LastStatus(w.log), w.data))
    && (forall i :: 0 <= i < |w.log| && w.log[i].Answered? ==>
          w.log[i].receipt <= w.data.receipt && w.log[i].session <= w.session && w.log[i].generation <= w.generation)
  }

  ghost predicate BannerFact(w: World, resetting: bool) {
    resetting || forall n :: n in w.data.notes ==> OwnedBy(n, w)
  }

  predicate InstallingNow(w: World) { w.st.writer.Some? && Installing(w.Pc(w.st.writer.value)) }

  predicate ResettingNow(w: World) { w.gw.writer.Some? && Resetting(w.Pc(w.gw.writer.value), w.mode) }

  ghost predicate SharedFact(w: World, installing: bool, resetting: bool) {
    PhaseInv(w) && ControllerInv(w) && StatusFact(w, installing) && WaterInv(w) && BannerFact(w, resetting) && LogInv(w.log)
  }

  lemma SharedAsFact(w: World)
    ensures Shared(w) <==> SharedFact(w, InstallingNow(w), ResettingNow(w))
  {
    hide PhaseInv, ControllerInv, WaterInv, LogInv, OwnedBy, StatusFrom, LastStatus, LastAnswer;
  }

  lemma FactShared(a: World, b: World, installing: bool, resetting: bool)
    requires SameShared(a, b)
    ensures SharedFact(a, installing, resetting) <==> SharedFact(b, installing, resetting)
  {
    hide LastController, LastStatus, LastAnswer, LastMode, EntryBacked, LiveController, LiveMode, StatusFrom, ReadFrom, NoSnapshotFrom;
  }

  // A step of t keeps everything when its effect does.
  lemma Preserved(w: World, x: World, t: Tid, m: Move)
    requires Inv(w) && SameControl(w, x) && Can(w.gw, m.gw) && Can(w.st, m.st) && MoveFits(w.Pc(t), m)
    requires EffectPromise(w, t, x) && PcInv(x, t, m.pc)
    requires SharedFact(x, if StWrite(w.Pc(t)) || StWrite(m.pc) then Installing(m.pc) else InstallingNow(w),
                           if GwWrite(w.Pc(t)) || GwWrite(m.pc) then Resetting(m.pc, x.mode) else if x.mode == w.mode then ResettingNow(w) else true)
    ensures Inv(x.Make(t, m))
  {
    hide SharedFact, EffectPromise, PcInv, AllFine, Shared, MoveFits, GwWrite, StWrite, GwRead, StRead, Fine, Resetting, Installing;
    var w' := x.Make(t, m);
    assert AllFine(w) && Shared(w) && Exclusive(w.gw) && Exclusive(w.st);
    SharedPhase(w);
    Made(w, x, t, m);
    FineAt(w, t);
    WriterAfter(w, w', t, m.pc);
    ModeKept(w, x, t);
    FactShared(x, w', InstallingNow(w'), ResettingNow(w'));
    SharedAsFact(w');
  }

  // Only a goroutine that holds gatewayMu for writing changes the mode.
  lemma ModeKept(w: World, x: World, t: Tid)
    requires EffectPromise(w, t, x) && Fine(w, t)
    ensures x.mode != w.mode ==> GwWrite(w.Pc(t))
  {
    hide PcInv;
  }

  lemma SharedPhase(w: World)
    requires Shared(w)
    ensures PhaseInv(w)
  {
  }

  lemma WriterAfter(w: World, w': World, t: Tid, pc: Pc)
    requires Fine(w, t) && w'.Pc(t) == pc && Member(w'.st, t, StRead(pc), StWrite(pc)) && Member(w'.gw, t, GwRead(pc), GwWrite(pc))
    requires forall u :: u != t ==> w'.Pc(u) == w.Pc(u) && SameMember(w.gw, w'.gw, u) && SameMember(w.st, w'.st, u)
    ensures InstallingNow(w') == if StWrite(w.Pc(t)) || StWrite(pc) then Installing(pc) else InstallingNow(w)
    ensures GwWrite(w.Pc(t)) || GwWrite(pc) ==> ResettingNow(w') == Resetting(pc, w'.mode)
    ensures !GwWrite(w.Pc(t)) && !GwWrite(pc) && w'.mode == w.mode ==> ResettingNow(w') == ResettingNow(w)
  {
    hide PcInv, GwRead, StRead;
  }
}
