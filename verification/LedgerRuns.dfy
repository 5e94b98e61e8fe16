// Release runs sharing the ledger, interleaved at every API call
// (scripts/release_state.py:98-161, 164-215, 303-330).
module LedgerRuns {
  import opened Wrappers
  import opened Ledger

  datatype Publication = Publication(plan: Plan, run: nat, parent: Option<string>, promotion: bool)

  // Where a run stands between two API calls, with the snapshot it works on.
  datatype Pc =
    | Idle
    | ReadForReserve(q: Request) | RefForReserve(q: Request) | Deciding(q: Request, snap: Option<State>)
    | Branching(q: Request, snap: Option<State>, plan: Plan, next: State)
    | WritingPlan(q: Request, snap: Option<State>, plan: Plan, next: State)
    | ReadForBegin(b: Publication) | RefForBegin(b: Publication) | Verifying(b: Publication, snap: Option<State>)
    | WritingFloor(b: Publication, snap: Option<State>, next: State)

  // What a call reported: a reservation, or a publication that may begin.
  datatype Entry = Returned(run: nat, plan: Plan) | Began(plan: Plan, promotion: bool)

  datatype World = World(file: Option<State>, branch: bool, published: set<Tag>, threads: map<nat, Pc>, log: seq<Entry>,
                         size: State -> nat)
  {
    function Pc(t: nat): Pc { if t in threads then threads[t] else Idle }

    function At(t: nat, pc: Pc): World { this.(threads := threads[t := pc]) }

    function Log(e: Entry): World { this.(log := log + [e]) }

    function Now(): State { Contents(file) }

    // read_state accepts the file.
    predicate CanRead() { file.Some? && Readable(file.value) && size(file.value) <= MAX_LEDGER }
  }

  datatype Act =
    | Reserve(t: nat, q: Request)
    | Begin(t: nat, b: Publication)
    | Go(t: nat)
    // Outcomes of calls outside the ledger: the tags' next sequence and whether the
    // tag is still absent, or a failure of the run at this point.
    | Decided(t: nat, published: nat, highest: nat, absent: bool)
    | Stop(t: nat)
    // The write is accepted and its answer lost, so the run fails without a report.
    | Unheard(t: nat)
    | Releases(tags: set<Tag>)

  ghost predicate Can(w: World, a: Act) {
    match a
    case Reserve(t, q) => w.Pc(t).Idle? && q.run > 0
    case Begin(t, b) => w.Pc(t).Idle? && b.run > 0
    case Go(t) => !w.Pc(t).Idle? && !w.Pc(t).Deciding?
    case Decided(t, _, highest, _) => w.Pc(t).Deciding? && IsHighest(Contents(w.Pc(t).snap).plans, w.Pc(t).q.base, w.Pc(t).q.channel, highest)
    case Stop(_) => true
    case Unheard(t) =>
      && w.branch && (w.Pc(t).WritingPlan? || w.Pc(t).WritingFloor?) && w.file == w.Pc(t).snap
    case Releases(_) => true
  }

  function Decides(w: World, t: nat, q: Request, snap: Option<State>, published: nat, highest: nat, absent: bool): World {
    match Decide(Contents(snap), q, published, highest)
    case Refused => w.At(t, Idle)
    case Existing(plan) => w.Log(Returned(q.run, plan)).At(t, Idle)
    case Allocate(plan, next) => w.At(t, if absent then Branching(q, snap, plan, next) else Idle)
  }

  function Advance(w: World, t: nat): World {
    match w.Pc(t)
    case ReadForReserve(q) =>
      w.At(t, if w.file.None? then RefForReserve(q) else if w.CanRead() then Deciding(q, w.file) else Idle)
    case RefForReserve(q) => w.At(t, if w.branch then Idle else Deciding(q, None))
    case Branching(q, snap, plan, next) => w.(branch := true).At(t, WritingPlan(q, snap, plan, next))
    // The blob identity is that of the content, so a stale write is rejected.
    case WritingPlan(q, snap, plan, next) =>
      if w.branch && w.file == snap then w.(file := Some(next)).Log(Returned(q.run, plan)).At(t, Idle) else w.At(t, Idle)
    case ReadForBegin(b) =>
      w.At(t, if w.file.None? then RefForBegin(b) else if w.CanRead() then Verifying(b, w.file) else Idle)
    case RefForBegin(b) => w.At(t, if w.branch then Idle else Verifying(b, None))
    case Verifying(b, snap) =>
      var s := Contents(snap);
      w.At(t, if (if b.promotion then MayPromote(s, b.plan, w.published) else MayPublish(s, b.plan, b.run, b.parent, w.published))
              then WritingFloor(b, snap, s.(floor := b.plan.number)) else Idle)
    case WritingFloor(b, snap, next) =>
      if w.branch && w.file == snap then w.(file := Some(next)).Log(Began(b.plan, b.promotion)).At(t, Idle) else w.At(t, Idle)
    case _ => w
  }

  function Do(w: World, a: Act): World {
    match a
    case Reserve(t, q) => w.At(t, ReadForReserve(q))
    case Begin(t, b) => w.At(t, ReadForBegin(b))
    case Go(t) => Advance(w, t)
    case Decided(t, published, highest, absent) =>
      if w.Pc(t).Deciding? then Decides(w, t, w.Pc(t).q, w.Pc(t).snap, published, highest, absent) else w
    case Stop(t) => w.At(t, Idle)
    case Unheard(t) => if w.Pc(t).WritingPlan? || w.Pc(t).WritingFloor? then w.(file := Some(w.Pc(t).next)).At(t, Idle) else w
    case Releases(tags) => w.(published := tags)
  }

  ghost predicate Initial(w: World) {
    && w.threads == map[] && w.log == [] && Good(w.Now()) && (w.file.Some? ==> w.branch)
  }

  // ---- the invariant ----

  // A snapshot was the ledger at some time, and could be read.
  predicate Past(w: World, snap: Option<State>) {
    && Good(Contents(snap)) && Extends(Contents(snap), w.Now())
    && (snap.Some? ==> w.size(snap.value) <= MAX_LEDGER)
  }

  predicate PlanWrite(q: Request, snap: Option<State>, plan: Plan, next: State) {
    var s := Contents(snap);
    && Good(next) && Extends(s, next) && next.floor == s.floor
    && q.run in next.plans && next.plans[q.run].plan == plan
  }

  predicate FloorWrite(b: Publication, snap: Option<State>, next: State) {
    var s := Contents(snap);
    && Good(next) && Extends(s, next) && next.floor == b.plan.number
    && b.plan.number >= s.floor && (!b.promotion ==> b.plan.number > s.floor)
  }

  predicate Fine(w: World, pc: Pc) {
    match pc
    case ReadForReserve(q) => q.run > 0
    case RefForReserve(q) => q.run > 0
    case Deciding(q, snap) => q.run > 0 && Past(w, snap)
    case Branching(q, snap, plan, next) => Past(w, snap) && PlanWrite(q, snap, plan, next)
    case WritingPlan(q, snap, plan, next) => Past(w, snap) && PlanWrite(q, snap, plan, next)
    case Verifying(b, snap) => Past(w, snap)
    case WritingFloor(b, snap, next) => Past(w, snap) && FloorWrite(b, snap, next)
    case _ => true
  }

  // Reservations that were reported are recorded; publications that began lie at or
  // below the floor, and each begins above every earlier one (a promotion at or above).
  predicate Recorded(s: State, e: Entry) {
    match e
    case Returned(run, plan) => run in s.plans && s.plans[run].plan == plan
    case Began(plan, _) => plan.number <= s.floor
  }

  predicate InOrder(first: Entry, second: Entry) {
    first.Began? && second.Began? ==>
      if second.promotion then first.plan.number <= second.plan.number else first.plan.number < second.plan.number
  }

  ghost predicate LogInv(s: State, log: seq<Entry>) {
    && (forall i :: 0 <= i < |log| ==> Recorded(s, log[i]))
    && (forall i, j :: 0 <= i < j < |log| ==> InOrder(log[i], log[j]))
  }

  ghost predicate Inv(w: World) {
    && Good(w.Now()) && (w.file.Some? ==> w.branch)
    && (forall t: nat :: Fine(w, w.Pc(t)))
    && LogInv(w.Now(), w.log)
  }

  // ---- steps ----

  lemma ExtendsTransitive(a: State, b: State, c: State)
    requires Extends(a, b) && Extends(b, c)
    ensures Extends(a, c)
  {
  }

  // What a run knows survives every later ledger.
  lemma FineKept(w: World, w': World, pc: Pc)
    requires Fine(w, pc) && Extends(w.Now(), w'.Now()) && w'.size == w.size
    ensures Fine(w', pc)
  {
    hide Extends, Good, PlanWrite, FloorWrite;
    match pc
    case Deciding(_, snap) => ExtendsTransitive(Contents(snap), w.Now(), w'.Now());
    case Branching(_, snap, _, _) => ExtendsTransitive(Contents(snap), w.Now(), w'.Now());
    case WritingPlan(_, snap, _, _) => ExtendsTransitive(Contents(snap), w.Now(), w'.Now());
    case Verifying(_, snap) => ExtendsTransitive(Contents(snap), w.Now(), w'.Now());
    case WritingFloor(_, snap, _) => ExtendsTransitive(Contents(snap), w.Now(), w'.Now());
    case _ =>
  }

  lemma LogKept(s: State, next: State, log: seq<Entry>)
    requires LogInv(s, log) && Extends(s, next)
    ensures LogInv(next, log)
  {
  }

  lemma LogGrows(s: State, log: seq<Entry>, e: Entry)
    requires LogInv(s, log) && Recorded(s, e) && forall i :: 0 <= i < |log| ==> InOrder(log[i], e)
    ensures LogInv(s, log + [e])
  {
  }

  // A step that leaves the ledger alone and moves one run.
  lemma Moved(w: World, x: World, t: nat, pc: Pc)
    requires Inv(w) && x.file == w.file && x.size == w.size && (w.branch ==> x.branch) && x.threads == w.threads && Fine(x, pc) && LogInv(w.Now(), x.log)
    ensures Inv(x.At(t, pc))
  {
    hide LogInv, Good, Extends;
    var w' := x.At(t, pc);
    forall u: nat ensures Fine(w', w'.Pc(u)) {
      if u != t {
        assert w'.Pc(u) == w.Pc(u);
        assert Fine(w, w.Pc(u));
        SameFine(w, w', w.Pc(u));
      } else {
        SameFine(x, w', pc);
      }
    }
  }

  lemma SameFine(w: World, w': World, pc: Pc)
    requires Fine(w, pc) && w'.file == w.file && w'.size == w.size
    ensures Fine(w', pc)
  {
  }

  // An accepted write: the file is still the snapshot the new ledger extends.
  lemma Written(w: World, t: nat, next: State, e: Entry)
    requires Inv(w) && w.branch && Good(next) && Extends(w.Now(), next) && LogInv(next, w.log + [e])
    ensures Inv(w.(file := Some(next)).Log(e).At(t, Idle))
  {
    hide LogInv, Good, Extends;
    var w' := w.(file := Some(next)).Log(e).At(t, Idle);
    forall u: nat ensures Fine(w', w'.Pc(u)) {
      if u != t {
        assert w'.Pc(u) == w.Pc(u);
        assert Fine(w, w.Pc(u));
        FineKept(w, w', w.Pc(u));
      }
    }
  }

  lemma ExtendsSelf(s: State)
    ensures Extends(s, s)
  {
  }

  lemma Reads(w: World, t: nat)
    requires Inv(w) && (w.Pc(t).ReadForReserve? || w.Pc(t).RefForReserve? || w.Pc(t).ReadForBegin? || w.Pc(t).RefForBegin?)
    ensures Inv(Advance(w, t))
  {
    assert Fine(w, w.Pc(t));
    ExtendsSelf(w.Now());
    hide LogInv, Good, Extends;
    match w.Pc(t)
    case ReadForReserve(q) => Moved(w, w, t, if w.file.None? then RefForReserve(q) else if w.CanRead() then Deciding(q, w.file) else Idle);
    case RefForReserve(q) => NoLedgerYet(w); Moved(w, w, t, if w.branch then Idle else Deciding(q, None));
    case ReadForBegin(b) => Moved(w, w, t, if w.file.None? then RefForBegin(b) else if w.CanRead() then Verifying(b, w.file) else Idle);
    case RefForBegin(b) => NoLedgerYet(w); Moved(w, w, t, if w.branch then Idle else Verifying(b, None));
  }

  // Without a branch there is no file: an empty snapshot is the current ledger.
  lemma NoLedgerYet(w: World)
    requires Inv(w)
    ensures !w.branch ==> Past(w, None)
  {
  }

  lemma PlanWritten(w: World, t: nat, q: Request, snap: Option<State>, plan: Plan, next: State)
    requires Inv(w) && w.Pc(t) == WritingPlan(q, snap, plan, next) && w.branch && w.file == snap
    ensures Inv(w.(file := Some(next)).Log(Returned(q.run, plan)).At(t, Idle))
  {
    assert Fine(w, w.Pc(t));
    LogKept(w.Now(), next, w.log);
    LogGrows(next, w.log, Returned(q.run, plan));
    hide Inv, LogInv, Good, Extends;
    Written(w, t, next, Returned(q.run, plan));
  }

  lemma FloorWritten(w: World, t: nat, b: Publication, snap: Option<State>, next: State)
    requires Inv(w) && w.Pc(t) == WritingFloor(b, snap, next) && w.branch && w.file == snap
    ensures Inv(w.(file := Some(next)).Log(Began(b.plan, b.promotion)).At(t, Idle))
  {
    assert Fine(w, w.Pc(t));
    var e := Began(b.plan, b.promotion);
    LogKept(w.Now(), next, w.log);
    forall i | 0 <= i < |w.log| ensures InOrder(w.log[i], e) {
      assert Recorded(w.Now(), w.log[i]);
    }
    LogGrows(next, w.log, e);
    hide Inv, LogInv, Good, Extends;
    Written(w, t, next, e);
  }

  lemma Verifies(w: World, t: nat)
    requires Inv(w) && w.Pc(t).Verifying?
    ensures Inv(Advance(w, t))
  {
    assert Fine(w, w.Pc(t));
    var Verifying(b, snap) := w.Pc(t);
    var s := Contents(snap);
    hide LogInv, Good, Extends, MayPromote, MayPublish;
    if if b.promotion then MayPromote(s, b.plan, w.published) else MayPublish(s, b.plan, b.run, b.parent, w.published) {
      PublishGood(s, b.plan, b.run, b.parent, w.published, b.promotion);
      Moved(w, w, t, WritingFloor(b, snap, s.(floor := b.plan.number)));
    } else {
      Moved(w, w, t, Idle);
    }
  }

  lemma DecisionKept(w: World, t: nat, published: nat, highest: nat, absent: bool)
    requires Inv(w) && Can(w, Decided(t, published, highest, absent))
    ensures Inv(Do(w, Decided(t, published, highest, absent)))
  {
    assert Fine(w, w.Pc(t));
    var Deciding(q, snap) := w.Pc(t);
    var s := Contents(snap);
    match Decide(s, q, published, highest)
    case Refused =>
      hide LogInv, Good, Extends, Decide;
      Moved(w, w, t, Idle);
    case Existing(plan) =>
      LogGrows(w.Now(), w.log, Returned(q.run, plan));
      hide LogInv, Good, Extends, Decide;
      Moved(w, w.Log(Returned(q.run, plan)), t, Idle);
    case Allocate(plan, next) =>
      AllocateGood(s, q, published, highest);
      assert PlanWrite(q, snap, plan, next);
      hide LogInv, Good, Extends, Decide, PlanWrite;
      Moved(w, w, t, if absent then Branching(q, snap, plan, next) else Idle);
  }

  lemma Advances(w: World, t: nat)
    requires Inv(w) && !w.Pc(t).Idle? && !w.Pc(t).Deciding?
    ensures Inv(Advance(w, t))
  {
    assert Fine(w, w.Pc(t));
    hide LogInv, Good, Extends, PlanWrite, FloorWrite, Readable, MayPromote, MayPublish;
    match w.Pc(t)
    case Branching(q, snap, plan, next) =>
      SameFine(w, w.(branch := true), WritingPlan(q, snap, plan, next));
      Moved(w, w.(branch := true), t, WritingPlan(q, snap, plan, next));
    case WritingPlan(q, snap, plan, next) =>
      if w.branch && w.file == snap { PlanWritten(w, t, q, snap, plan, next); } else { Moved(w, w, t, Idle); }
    case WritingFloor(b, snap, next) =>
      if w.branch && w.file == snap { FloorWritten(w, t, b, snap, next); } else { Moved(w, w, t, Idle); }
    case Verifying(_, _) => Verifies(w, t);
    case _ => Reads(w, t);
  }

  lemma UnheardKept(w: World, t: nat)
    requires Inv(w) && Can(w, Unheard(t))
    ensures Inv(Do(w, Unheard(t)))
  {
    var next := w.Pc(t).next;
    assert Fine(w, w.Pc(t));
    assert Good(next) && Extends(w.Now(), next);
    LogKept(w.Now(), next, w.log);
    hide Inv, LogInv, Good, Extends;
    Replaced(w, t, next);
  }

  // An accepted write that is not reported.
  lemma Replaced(w: World, t: nat, next: State)
    requires Inv(w) && w.branch && Good(next) && Extends(w.Now(), next) && LogInv(next, w.log)
    ensures Inv(w.(file := Some(next)).At(t, Idle))
  {
    hide LogInv, Good, Extends;
    var w' := w.(file := Some(next)).At(t, Idle);
    forall u: nat ensures Fine(w', w'.Pc(u)) {
      if u != t {
        assert w'.Pc(u) == w.Pc(u);
        assert Fine(w, w.Pc(u));
        FineKept(w, w', w.Pc(u));
      }
    }
  }

  lemma StepKept(w: World, a: Act)
    requires Inv(w) && Can(w, a)
    ensures Inv(Do(w, a))
  {
    hide LogInv, Good, Extends, Decide, IsHighest, Advance;
    match a
    case Reserve(t, q) => Moved(w, w, t, ReadForReserve(q));
    case Begin(t, b) => Moved(w, w, t, ReadForBegin(b));
    case Go(t) => Advances(w, t);
    case Decided(t, published, highest, absent) => DecisionKept(w, t, published, highest, absent);
    case Stop(t) => Moved(w, w, t, Idle);
    case Unheard(t) => UnheardKept(w, t);
    case Releases(tags) => Released(w, tags);
  }

  lemma Released(w: World, tags: set<Tag>)
    requires Inv(w)
    ensures Inv(w.(published := tags))
  {
    var w' := w.(published := tags);
    hide LogInv, Good, Extends;
    forall t: nat ensures Fine(w', w'.Pc(t)) {
      assert w'.Pc(t) == w.Pc(t) && Fine(w, w.Pc(t));
      SameFine(w, w', w.Pc(t));
    }
  }

  // No step lowers the counter or the floor, or changes a recorded plan.
  lemma StepExtends(w: World, a: Act)
    requires Inv(w) && Can(w, a)
    ensures Extends(w.Now(), Do(w, a).Now())
  {
    ExtendsSelf(w.Now());
    hide Extends, Good, Decide, LogInv, IsHighest;
    if a.Go? || a.Unheard? {
      assert Fine(w, w.Pc(a.t));
    }
  }

  // ---- runs ----

  ghost predicate IsRun(ws: seq<World>, acts: seq<Act>) {
    && |ws| == |acts| + 1 && Initial(ws[0])
    && forall i :: 0 <= i < |acts| ==> Can(ws[i], acts[i]) && ws[i + 1] == Do(ws[i], acts[i])
  }

  lemma InitialInv(w: World)
    requires Initial(w)
    ensures Inv(w)
  {
  }

  lemma {:induction false} RunKeeps(ws: seq<World>, acts: seq<Act>, i: nat)
    requires IsRun(ws, acts) && i < |ws|
    ensures Inv(ws[i])
  {
    hide Inv, Can, Do, Initial;
    if i == 0 {
      InitialInv(ws[0]);
    } else {
      RunKeeps(ws, acts, i - 1);
      StepKept(ws[i - 1], acts[i - 1]);
    }
  }

  // Counter and floor never fall and a run's plan never changes, across any stretch of any run.
  lemma {:induction false} LedgerOnlyGrows(ws: seq<World>, acts: seq<Act>, i: nat, j: nat)
    requires IsRun(ws, acts) && i <= j < |ws|
    ensures Extends(ws[i].Now(), ws[j].Now())
    decreases j - i
  {
    hide Inv, Can, Do, Initial, Extends;
    if i == j {
      ExtendsSelf(ws[i].Now());
    } else {
      LedgerOnlyGrows(ws, acts, i, j - 1);
      RunKeeps(ws, acts, j - 1);
      StepExtends(ws[j - 1], acts[j - 1]);
      ExtendsTransitive(ws[i].Now(), ws[j - 1].Now(), ws[j].Now());
    }
  }

  // In every reachable ledger build numbers are distinct and at most the counter,
  // beta and RC tags never repeat, and the floor is at most the counter.
  lemma LedgerIsGood(ws: seq<World>, acts: seq<Act>, i: nat)
    requires IsRun(ws, acts) && i < |ws|
    ensures Good(ws[i].Now())
  {
    hide IsRun;
    RunKeeps(ws, acts, i);
  }

  // Two reservations reported for one run name the same plan, and it is the recorded one.
  lemma RetriesReturnTheSamePlan(ws: seq<World>, acts: seq<Act>, i: nat, a: nat, b: nat)
    requires IsRun(ws, acts) && i < |ws| && a < |ws[i].log| && b < |ws[i].log| && ws[i].log[a].Returned? && ws[i].log[b].Returned?
    requires ws[i].log[a].run == ws[i].log[b].run
    ensures ws[i].log[a].plan == ws[i].log[b].plan
  {
    hide IsRun;
    RunKeeps(ws, acts, i);
    assert Recorded(ws[i].Now(), ws[i].log[a]) && Recorded(ws[i].Now(), ws[i].log[b]);
  }

  // Plans reported to different runs carry different build numbers and, for beta and RC, different tags.
  lemma RunsNeverShare(ws: seq<World>, acts: seq<Act>, i: nat, a: nat, b: nat)
    requires IsRun(ws, acts) && i < |ws| && a < |ws[i].log| && b < |ws[i].log| && ws[i].log[a].Returned? && ws[i].log[b].Returned?
    requires ws[i].log[a].run != ws[i].log[b].run
    ensures ws[i].log[a].plan.number != ws[i].log[b].plan.number
    ensures Sequenced(ws[i].log[a].plan.tag.channel) ==> ws[i].log[a].plan.tag != ws[i].log[b].plan.tag
  {
    hide IsRun;
    RunKeeps(ws, acts, i);
    assert Recorded(ws[i].Now(), ws[i].log[a]) && Recorded(ws[i].Now(), ws[i].log[b]);
  }

  // Publications consume strictly increasing numbers; once a number is consumed, no
  // older one begins a publication or a promotion.
  lemma PublicationsIncrease(ws: seq<World>, acts: seq<Act>, i: nat, a: nat, b: nat)
    requires IsRun(ws, acts) && i < |ws| && a < b < |ws[i].log| && ws[i].log[a].Began? && ws[i].log[b].Began?
    ensures ws[i].log[a].plan.number <= ws[i].log[b].plan.number
    ensures !ws[i].log[b].promotion ==> ws[i].log[a].plan.number < ws[i].log[b].plan.number
  {
    hide IsRun;
    RunKeeps(ws, acts, i);
    assert InOrder(ws[i].log[a], ws[i].log[b]);
  }

  // ---- reading and writing ----

  // Whatever a run writes has the shape that can be read again: read_state fails exactly
  // while the ledger's branch exists without its file, and once the file is too large.
  lemma ReadFailsIff(ws: seq<World>, acts: seq<Act>, i: nat)
    requires IsRun(ws, acts) && i < |ws|
    ensures !GitHub.Usable(ws[i].size, ws[i].file, ws[i].branch)
            <==> (ws[i].branch && ws[i].file.None?) || (ws[i].file.Some? && ws[i].size(ws[i].file.value) > MAX_LEDGER)
  {
    hide IsRun;
    RunKeeps(ws, acts, i);
    assert ws[i].file.Some? ==> Readable(ws[i].Now());
  }

  predicate TooLarge(w: World) { w.file.Some? && w.size(w.file.value) > MAX_LEDGER }

  lemma StuckStep(w: World, a: Act)
    requires Inv(w) && Can(w, a) && TooLarge(w)
    ensures Do(w, a).file == w.file && Do(w, a).size == w.size
  {
    hide Good, Extends, Decide, LogInv, IsHighest, MayPublish, MayPromote, Readable;
    if a.Go? || a.Unheard? {
      assert Fine(w, w.Pc(a.t));
    }
  }

  // A ledger above the limit is the last one: no run can read it, so none replaces it.
  lemma {:induction false} TooLargeIsFinal(ws: seq<World>, acts: seq<Act>, i: nat, j: nat)
    requires IsRun(ws, acts) && i <= j < |ws| && TooLarge(ws[i])
    ensures ws[j].file == ws[i].file && TooLarge(ws[j])
    decreases j - i
  {
    hide Inv, Can, Do, Initial;
    if i < j {
      TooLargeIsFinal(ws, acts, i, j - 1);
      RunKeeps(ws, acts, j - 1);
      StuckStep(ws[j - 1], acts[j - 1]);
    }
  }

  // The file never goes away, so its content alone tells the writes apart.
  lemma {:induction false} FileStays(ws: seq<World>, acts: seq<Act>, i: nat, j: nat)
    requires IsRun(ws, acts) && i <= j < |ws| && ws[i].file.Some?
    ensures ws[j].file.Some?
    decreases j - i
  {
    if i < j {
      FileStays(ws, acts, i, j - 1);
      hide Decide, MayPublish, MayPromote, Readable, IsHighest;
      assert ws[j] == Do(ws[j - 1], acts[j - 1]);
    }
  }

  lemma ExtendsBoth(a: State, b: State)
    requires Extends(a, b) && Extends(b, a)
    ensures a == b
  {
    assert a.plans == b.plans;
  }

  // An accepted write follows its snapshot with no other write in between: a file that
  // is again what it was has been that all the time.
  lemma SnapshotHeld(ws: seq<World>, acts: seq<Act>, i: nat, k: nat, j: nat)
    requires IsRun(ws, acts) && i <= k <= j < |ws| && ws[i].file == ws[j].file
    ensures ws[k].file == ws[i].file
  {
    hide IsRun, Extends;
    LedgerOnlyGrows(ws, acts, i, k);
    LedgerOnlyGrows(ws, acts, k, j);
    ExtendsBoth(ws[i].Now(), ws[k].Now());
    if ws[i].file.Some? {
      FileStays(ws, acts, i, k);
    } else if ws[k].file.Some? {
      FileStays(ws, acts, k, j);
    }
  }

  // ---- a run that nobody interferes with ----

  function Rank(pc: Pc): nat {
    match pc
    case Idle => 0
    case ReadForReserve(_) => 5
    case RefForReserve(_) => 4
    case Deciding(_, _) => 3
    case Branching(_, _, _, _) => 2
    case WritingPlan(_, _, _, _) => 1
    case ReadForBegin(_) => 5
    case RefForBegin(_) => 4
    case Verifying(_, _) => 3
    case WritingFloor(_, _, _) => 1
  }

  function Next(t: nat, pc: Pc, published: nat, highest: nat): Act {
    if pc.Deciding? then Decided(t, published, highest, true) else Go(t)
  }

  lemma Descends(w: World, t: nat, published: nat, highest: nat)
    requires !w.Pc(t).Idle?
    ensures Rank(Do(w, Next(t, w.Pc(t), published, highest)).Pc(t)) < Rank(w.Pc(t))
  {
    hide Decide, MayPublish, MayPromote, Readable;
  }

  // The remaining steps of t, one after the other; its tag is still absent.
  function Alone(w: World, t: nat, published: nat, highest: nat): World
    decreases Rank(w.Pc(t))
  {
    if w.Pc(t).Idle? then w
    else
      Descends(w, t, published, highest);
      Alone(Do(w, Next(t, w.Pc(t), published, highest)), t, published, highest)
  }

  function Reported(before: seq<Entry>, after: seq<Entry>): Result<Plan, string> {
    if |after| == |before| + 1 then Ok(after[|before|].plan) else Err("nothing reported")
  }

  // Interleaved with nobody, the steps of reserve_plan do what the whole call does:
  // what GitHub.ReservePlan is proved to do.
  lemma AloneReserves(w: World, t: nat, q: Request, published: nat, highest: nat)
    requires w.Pc(t).Idle? && q.run > 0 && (w.file.Some? ==> w.branch)
    requires IsHighest(w.Now().plans, q.base, q.channel, highest)
    ensures var z := Alone(Do(w, Reserve(t, q)), t, published, highest);
      && (!GitHub.Usable(w.size, w.file, w.branch) ==> z.file == w.file && z.log == w.log)
      && (GitHub.Usable(w.size, w.file, w.branch) ==> GitHub.Reserved(q, published, highest, w.file, z.file, Reported(w.log, z.log)))
  {
    hide IsHighest, Decide, Readable;
    var a := Do(w, Reserve(t, q));
    var b := Advance(a, t);
    assert Alone(a, t, published, highest) == Alone(b, t, published, highest);
    if b.Pc(t).RefForReserve? {
      var c := Advance(b, t);
      assert Alone(b, t, published, highest) == Alone(c, t, published, highest);
      if c.Pc(t).Deciding? { AloneDecides(c, t, published, highest); }
    } else if b.Pc(t).Deciding? {
      AloneDecides(b, t, published, highest);
    }
  }

  lemma AloneDecides(w: World, t: nat, published: nat, highest: nat)
    requires w.Pc(t).Deciding? && w.Pc(t).snap == w.file && (w.file.Some? ==> w.branch)
    ensures var q, z := w.Pc(t).q, Alone(w, t, published, highest);
      match Decide(w.Now(), q, published, highest)
      case Refused => z.file == w.file && z.log == w.log
      case Existing(plan) => z.file == w.file && z.log == w.log + [Returned(q.run, plan)]
      case Allocate(plan, next) => z.file == Some(next) && z.log == w.log + [Returned(q.run, plan)]
  {
    var Deciding(q, snap) := w.Pc(t);
    var a := Do(w, Decided(t, published, highest, true));
    match Decide(w.Now(), q, published, highest)
    case Refused =>
    case Existing(plan) =>
    case Allocate(plan, next) =>
      hide Decide;
      assert a.Pc(t) == Branching(q, snap, plan, next) && a.file == w.file;
      var b := Advance(a, t);
      assert b.Pc(t) == WritingPlan(q, snap, plan, next) && b.branch && b.file == w.file;
      var c := Advance(b, t);
      assert c.Pc(t).Idle? && c.file == Some(next);
      assert Alone(b, t, published, highest) == c;
  }

  lemma NothingToPublish(b: Publication, published: set<Tag>)
    ensures !MayPromote(EMPTY, b.plan, published) && !MayPublish(EMPTY, b.plan, b.run, b.parent, published)
  {
  }

  // The same for begin_publication.
  lemma AloneBegins(w: World, t: nat, b: Publication, published: nat, highest: nat)
    requires w.Pc(t).Idle? && b.run > 0 && (w.file.Some? ==> w.branch)
    ensures var z := Alone(Do(w, Begin(t, b)), t, published, highest);
      var allowed := GitHub.Usable(w.size, w.file, w.branch)
        && if b.promotion then MayPromote(w.Now(), b.plan, w.published) else MayPublish(w.Now(), b.plan, b.run, b.parent, w.published);
      && z.file == (if allowed then Some(w.Now().(floor := b.plan.number)) else w.file)
      && z.log == (if allowed then w.log + [Began(b.plan, b.promotion)] else w.log)
  {
    hide MayPublish, MayPromote, Readable;
    var a := Do(w, Begin(t, b));
    var c := Advance(a, t);
    assert Alone(a, t, published, highest) == Alone(c, t, published, highest);
    NothingToPublish(b, w.published);
    if c.Pc(t).RefForBegin? {
      var d := Advance(c, t);
      assert Alone(c, t, published, highest) == Alone(d, t, published, highest);
      if d.Pc(t).Verifying? { AloneVerifies(d, t, published, highest); }
    } else if c.Pc(t).Verifying? {
      AloneVerifies(c, t, published, highest);
    }
  }

  lemma AloneVerifies(w: World, t: nat, published: nat, highest: nat)
    requires w.Pc(t).Verifying? && w.Pc(t).snap == w.file
    ensures var b, z := w.Pc(t).b, Alone(w, t, published, highest);
      var allowed := w.branch && if b.promotion then MayPromote(w.Now(), b.plan, w.published) else MayPublish(w.Now(), b.plan, b.run, b.parent, w.published);
      && z.file == (if allowed then Some(w.Now().(floor := b.plan.number)) else w.file)
      && z.log == (if allowed then w.log + [Began(b.plan, b.promotion)] else w.log)
  {
    hide MayPublish, MayPromote;
    var a := Advance(w, t);
    if a.Pc(t).WritingFloor? {
      assert Alone(a, t, published, highest) == Advance(a, t);
    }
  }

  // ---- a ledger that outgrows the limit ----

  ghost predicate Reachable(w: World) {
    exists ws: seq<World>, acts: seq<Act> :: |ws| == |acts| + 1 && IsRun(ws, acts) && ws[|acts|] == w
  }

  lemma Extend(w: World, a: Act)
    requires Reachable(w) && Can(w, a)
    ensures Reachable(Do(w, a))
  {
    hide Can, Do, Initial;
    var ws: seq<World>, acts: seq<Act> :| |ws| == |acts| + 1 && IsRun(ws, acts) && ws[|acts|] == w;
    var vs, bs := ws + [Do(w, a)], acts + [a];
    forall i | 0 <= i < |bs| ensures Can(vs[i], bs[i]) && vs[i + 1] == Do(vs[i], bs[i]) {
      if i < |acts| {
        assert vs[i] == ws[i] && vs[i + 1] == ws[i + 1];
      }
    }
    assert vs[|bs|] == Do(w, a);
  }

  // The highest sequence is the one of whoever is about to decide.
  ghost predicate Decidable(pc: Pc, highest: nat) {
    pc.Deciding? ==> IsHighest(Contents(pc.snap).plans, pc.q.base, pc.q.channel, highest)
  }

  lemma {:induction false} AloneReachable(w: World, t: nat, published: nat, highest: nat, plans: map<nat, Record>, q: Request)
    requires Reachable(w) && IsHighest(plans, q.base, q.channel, highest) && OnCourse(w, t, plans, q)
    ensures Reachable(Alone(w, t, published, highest)) && Alone(w, t, published, highest).Pc(t).Idle?
    decreases Rank(w.Pc(t))
  {
    if !w.Pc(t).Idle? {
      var a := Next(t, w.Pc(t), published, highest);
      CourseKept(w, t, published, highest, plans, q);
      Descends(w, t, published, highest);
      hide Reachable, Can, Do, IsHighest, OnCourse;
      Extend(w, a);
      AloneReachable(Do(w, a), t, published, highest, plans, q);
    }
  }

  // The run t reserves q on the ledger with these plans.
  predicate OnCourse(w: World, t: nat, plans: map<nat, Record>, q: Request) {
    match w.Pc(t)
    case Idle => true
    case ReadForReserve(p) => p == q && w.Now().plans == plans
    case RefForReserve(p) => p == q && plans == map[]
    case Deciding(p, snap) => p == q && Contents(snap).plans == plans
    case Branching(_, _, _, _) => true
    case WritingPlan(_, _, _, _) => true
    case _ => false
  }

  lemma CourseKept(w: World, t: nat, published: nat, highest: nat, plans: map<nat, Record>, q: Request)
    requires !w.Pc(t).Idle? && IsHighest(plans, q.base, q.channel, highest) && OnCourse(w, t, plans, q)
    ensures var a := Next(t, w.Pc(t), published, highest); Can(w, a) && OnCourse(Do(w, a), t, plans, q)
  {
    hide IsHighest, Decide, Readable;
  }

  // The ledger after reservations for the runs 1 to n.
  predicate Filled(s: State, floor: nat, n: nat) {
    && s.counter <= floor + n && |s.plans| == n
    && forall r :: r in s.plans ==> 0 < r <= n && s.plans[r].plan.tag.channel.Stable? && ValidPlan(s.plans[r].plan)
  }

  lemma FilledNext(s: State, q: Request, n: nat)
    requires Filled(s, q.policy.floor, n) && q.channel.Stable? && q.run == n + 1 && q.policy.floor + n < MAX_BUILD
    ensures var d := Decide(s, q, 0, 0); d.Allocate? && Filled(d.next, q.policy.floor, n + 1)
    ensures IsHighest(s.plans, q.base, q.channel, 0)
  {
    var d := Decide(s, q, 0, 0);
    assert n + 1 !in s.plans;
    assert d.next.plans == s.plans[n + 1 := Record(d.plan, q.parent)];
  }

  lemma ReachableGood(w: World)
    requires Reachable(w)
    ensures Good(w.Now()) && (w.file.Some? ==> w.branch)
  {
    hide IsRun, Good;
    var ws: seq<World>, acts: seq<Act> :| |ws| == |acts| + 1 && IsRun(ws, acts) && ws[|acts|] == w;
    RunKeeps(ws, acts, |acts|);
  }

  // n reservations are recorded, unless the ledger has become too large before.
  ghost predicate Grown(w: World, floor: nat, n: nat) {
    Reachable(w) && w.Pc(0).Idle? && (w.file.None? ==> !w.branch) && (TooLarge(w) || Filled(w.Now(), floor, n))
  }

  lemma GrowOne(w: World, q: Request, n: nat) returns (z: World)
    requires Grown(w, q.policy.floor, n) && q.channel.Stable? && q.policy.floor + n < MAX_BUILD
    ensures Grown(z, q.policy.floor, n + 1) && z.size == w.size
  {
    if TooLarge(w) {
      z := w;
    } else {
      ReachableGood(w);
      z := Reserves(w, q.(run := n + 1), n);
    }
  }

  lemma Reserves(w: World, q: Request, n: nat) returns (z: World)
    requires Grown(w, q.policy.floor, n) && !TooLarge(w) && Good(w.Now()) && (w.file.Some? ==> w.branch)
    requires q.channel.Stable? && q.run == n + 1 && q.policy.floor + n < MAX_BUILD
    ensures Grown(z, q.policy.floor, n + 1) && z.size == w.size
  {
    var s := w.Now();
    FilledNext(s, q, n);
    assert Readable(s);
    hide Reachable, Filled, IsHighest, Decide, Readable, Alone, Good;
    var a := Do(w, Reserve(0, q));
    z := Alone(a, 0, 0, 0);
    Extend(w, Reserve(0, q));
    AloneReachable(a, 0, 0, 0, s.plans, q);
    AloneReserves(w, 0, q, 0, 0);
    AloneSize(a, 0, 0, 0);
    assert z.file == Some(Decide(s, q, 0, 0).next);
  }

  lemma {:induction false} Grow(size: State -> nat, q: Request, n: nat) returns (w: World)
    requires q.channel.Stable? && q.policy.floor + n <= MAX_BUILD
    ensures Grown(w, q.policy.floor, n) && w.size == size
    decreases n
  {
    if n == 0 {
      w := World(None, false, {}, map[], [], size);
      var acts: seq<Act> := [];
      assert IsRun([w], acts) && [w][|acts|] == w;
    } else {
      var v := Grow(size, q, n - 1);
      hide Grown;
      w := GrowOne(v, q, n - 1);
    }
  }

  // Whatever the encoding, as long as a record takes at least one byte, and whatever is
  // reserved: stable reservations of as many runs that all succeed lead to a ledger that
  // no run can read.
  lemma Outgrown(size: State -> nat, q: Request) returns (ws: seq<World>, acts: seq<Act>)
    requires Lawful(size) && q.channel.Stable? && q.policy.floor + MAX_LEDGER < MAX_BUILD
    ensures IsRun(ws, acts) && ws[|acts|].size == size && TooLarge(ws[|acts|])
  {
    var w := Grow(size, q, MAX_LEDGER + 1);
    hide IsRun;
    ws, acts :| |ws| == |acts| + 1 && IsRun(ws, acts) && ws[|acts|] == w;
  }

  lemma {:induction false} AloneSize(w: World, t: nat, published: nat, highest: nat)
    ensures Alone(w, t, published, highest).size == w.size
    ensures w.file.Some? && w.branch ==> Alone(w, t, published, highest).branch
    decreases Rank(w.Pc(t))
  {
    if !w.Pc(t).Idle? {
      hide Decide, MayPublish, MayPromote, Readable;
      Descends(w, t, published, highest);
      AloneSize(Do(w, Next(t, w.Pc(t), published, highest)), t, published, highest);
    }
  }
}
