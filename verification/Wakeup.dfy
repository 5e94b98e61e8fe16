// Coalesced wake-ups: triggerHandler and the goroutine it starts
// (internal/mqtt/client.go:404-438).
module Wakeup {
  // A trigger loads the word, then tries the compare-and-swap of its case; the winner
  // of 0 -> 1 starts the worker. The worker calls the handler until 1 -> 0 succeeds.
  datatype Pc =
    | Idle
    | Triggering
    | Loaded(value: nat)
    | Spawning
    | Starting
    | Handling
    | Handled
    | Storing

  // Called: a trigger begins. Won: its compare-and-swap succeeded. Saw: it found 2.
  // Began: a handler call begins.
  datatype Entry = Called | Won | Saw | Began

  datatype World = World(pending: nat, threads: map<nat, Pc>, log: seq<Entry>, steps: nat)
  {
    function Pc(t: nat): Pc { if t in threads then threads[t] else Idle }

    function At(t: nat, pc: Pc): World { this.(threads := threads[t := pc]) }

    function Log(e: Entry): World { this.(log := log + [e]) }

    function Worked(): World { this.(steps := steps + 1) }
  }

  // One step of goroutine t; `spawned` is the goroutine a spawn starts.
  predicate Step(w: World, t: nat, spawned: nat, w': World) {
    match w.Pc(t)
    case Idle => w' == w.Log(Called).At(t, Triggering)
    case Triggering => w' == if w.pending == 2 then w.Log(Saw).At(t, Idle) else w.At(t, Loaded(w.pending))
    case Loaded(v) =>
      if w.pending != v then w' == w.At(t, Triggering)
      else if v == 0 then w' == w.(pending := 1).Log(Won).At(t, Spawning)
      else w' == w.(pending := 2).Log(Won).At(t, Idle)
    case Spawning => w.Pc(spawned).Idle? && spawned != t && w' == w.At(t, Idle).At(spawned, Starting)
    case Starting => w' == w.Log(Began).Worked().At(t, Handling)
    case Handling => w' == w.Worked().At(t, Handled)
    case Handled => w' == if w.pending == 1 then w.(pending := 0).Worked().At(t, Idle) else w.Worked().At(t, Storing)
    case Storing => w' == w.(pending := 1).Worked().At(t, Starting)
  }

  predicate Initial(w: World) { w == World(0, map[], [], 0) }

  // ---- the invariant ----

  predicate Worker(pc: Pc) { pc.Starting? || pc.Handling? || pc.Handled? || pc.Storing? }

  // The token of the pending word: the worker, or the trigger about to start it.
  predicate Holder(pc: Pc) { pc.Spawning? || Worker(pc) }

  function Count(log: seq<Entry>, e: Entry): nat {
    if log == [] then 0 else Count(log[..|log| - 1], e) + (if log[|log| - 1] == e then 1 else 0)
  }

  // A trigger settled and no handler call began since.
  function Unserved(log: seq<Entry>): bool {
    log != [] && (log[|log| - 1].Won? || log[|log| - 1].Saw? || (!log[|log| - 1].Began? && Unserved(log[..|log| - 1])))
  }

  predicate AboutToCall(pc: Pc) { pc.Spawning? || pc.Starting? }

  function Owed(w: World, pc: Pc): nat {
    (if AboutToCall(pc) then 1 else 0) + (if w.pending == 2 then 1 else 0)
  }

  function Rank(pc: Pc): nat {
    match pc
    case Spawning => 3
    case Starting => 3
    case Handling => 2
    case Handled => 1
    case _ => 0
  }

  // Steps the worker can still take before the word is 0, without new triggers.
  function Potential(w: World, pc: Pc): nat { Rank(pc) + (if w.pending == 2 then 4 else 0) }

  // What the unique holder's counter says about the word and the log.
  predicate Held(w: World, pc: Pc) {
    && w.pending > 0 && (pc.Storing? ==> w.pending == 2)
    && Count(w.log, Won) == Count(w.log, Began) + Owed(w, pc)
    && (Unserved(w.log) ==> AboutToCall(pc) || w.pending == 2)
    && w.steps + Potential(w, pc) <= 4 * Count(w.log, Won)
  }

  predicate Free(w: World) {
    && w.pending == 0 && Count(w.log, Won) == Count(w.log, Began) && !Unserved(w.log) && w.steps <= 4 * Count(w.log, Won)
  }

  predicate OnlyHolder(w: World, h: nat) {
    h in w.threads && Holder(w.threads[h]) && forall t :: t in w.threads && t != h ==> !Holder(w.threads[t])
  }

  predicate NoHolder(w: World) { forall t :: t in w.threads ==> !Holder(w.threads[t]) }

  ghost predicate Inv(w: World) {
    && w.pending <= 2 && (forall t :: t in w.threads && w.threads[t].Loaded? ==> w.threads[t].value <= 1)
    && Calls(w) && ((NoHolder(w) && Free(w)) || exists h :: OnlyHolder(w, h) && Held(w, w.Pc(h)))
  }

  // Every win belongs to a trigger that was called.
  function Undecided(threads: map<nat, Pc>): set<nat> {
    set t | t in threads && (threads[t].Triggering? || threads[t].Loaded?)
  }

  ghost predicate Calls(w: World) {
    Count(w.log, Won) + Count(w.log, Saw) + |Undecided(w.threads)| == Count(w.log, Called)
  }

  lemma Counted(log: seq<Entry>, e: Entry)
    ensures forall x :: Count(log + [e], x) == Count(log, x) + (if x == e then 1 else 0)
    ensures Unserved(log + [e]) == (e.Won? || e.Saw? || (!e.Began? && Unserved(log)))
  {
    assert (log + [e])[..|log|] == log;
  }

  predicate Deciding(pc: Pc) { pc.Triggering? || pc.Loaded? }

  lemma UndecidedAt(threads: map<nat, Pc>, t: nat, pc: Pc)
    ensures var was := t in threads && Deciding(threads[t]);
      |Undecided(threads[t := pc])| == |Undecided(threads)| + (if Deciding(pc) then 1 else 0) - (if was then 1 else 0)
  {
    var before := Undecided(threads);
    assert Undecided(threads[t := pc]) == if Deciding(pc) then before + {t} else before - {t};
  }

  lemma CallsMoved(w: World, t: nat, pc: Pc, log: seq<Entry>)
    requires Calls(w)
    requires Count(log, Won) + Count(log, Saw) + (if Deciding(pc) then 1 else 0) + Count(w.log, Called)
             == Count(w.log, Won) + Count(w.log, Saw) + (if Deciding(w.Pc(t)) then 1 else 0) + Count(log, Called)
    ensures Calls(w.(log := log).At(t, pc))
  {
    hide Count, Undecided;
    UndecidedAt(w.threads, t, pc);
  }

  lemma CallsKept(w: World, t: nat, spawned: nat, w': World)
    requires Calls(w) && Step(w, t, spawned, w')
    ensures Calls(w')
  {
    hide Count, Undecided, Calls;
    Counted(w.log, Called);
    Counted(w.log, Won);
    Counted(w.log, Saw);
    Counted(w.log, Began);
    if w.Pc(t).Spawning? {
      CallsMoved(w, t, Idle, w.log);
      CallsMoved(w.At(t, Idle), spawned, Starting, w.log);
    } else {
      CallsMoved(w, t, w'.Pc(t), w'.log);
      SameCalls(w.(log := w'.log).At(t, w'.Pc(t)), w');
    }
  }

  lemma SameCalls(a: World, b: World)
    requires Calls(a) && a.log == b.log && a.threads == b.threads
    ensures Calls(b)
  {
  }

  // The holder, or the trigger that becomes it, moves.
  lemma HolderKept(w: World, t: nat, spawned: nat, w': World)
    requires Inv(w) && Step(w, t, spawned, w') && Holder(w.Pc(t))
    ensures (NoHolder(w') && Free(w')) || exists h :: OnlyHolder(w', h) && Held(w', w'.Pc(h))
    ensures w'.pending <= 2 && forall u :: u in w'.threads && w'.threads[u].Loaded? ==> w'.threads[u].value <= 1
  {
    hide Count, Unserved, Calls;
    Counted(w.log, Began);
    var h :| OnlyHolder(w, h) && Held(w, w.Pc(h));
    assert h == t;
    if w.Pc(t).Spawning? {
      assert OnlyHolder(w', spawned) && Held(w', w'.Pc(spawned));
    } else if w'.Pc(t).Idle? {
      assert NoHolder(w');
    } else {
      assert OnlyHolder(w', t);
    }
  }

  lemma TriggerKept(w: World, t: nat, spawned: nat, w': World)
    requires Inv(w) && Step(w, t, spawned, w') && !Holder(w.Pc(t))
    ensures (NoHolder(w') && Free(w')) || exists h :: OnlyHolder(w', h) && Held(w', w'.Pc(h))
    ensures w'.pending <= 2 && forall u :: u in w'.threads && w'.threads[u].Loaded? ==> w'.threads[u].value <= 1
  {
    hide Count, Unserved, Calls;
    Counted(w.log, Called);
    Counted(w.log, Won);
    Counted(w.log, Saw);
    if NoHolder(w) && Free(w) {
      if w'.Pc(t).Spawning? {
        assert OnlyHolder(w', t) && Held(w', w'.Pc(t));
      } else {
        assert NoHolder(w');
      }
    } else {
      var h :| OnlyHolder(w, h) && Held(w, w.Pc(h));
      assert h != t && w'.Pc(h) == w.Pc(h);
      assert OnlyHolder(w', h) && Held(w', w'.Pc(h));
    }
  }

  lemma StepKept(w: World, t: nat, spawned: nat, w': World)
    requires Inv(w) && Step(w, t, spawned, w')
    ensures Inv(w')
  {
    CallsKept(w, t, spawned, w');
    hide Step, Calls, Free, Held;
    if Holder(w.Pc(t)) {
      HolderKept(w, t, spawned, w');
    } else {
      TriggerKept(w, t, spawned, w');
    }
  }

  // ---- runs ----

  ghost predicate IsRun(ws: seq<World>, ts: seq<(nat, nat)>) {
    |ws| == |ts| + 1 && Initial(ws[0]) && forall i :: 0 <= i < |ts| ==> Step(ws[i], ts[i].0, ts[i].1, ws[i + 1])
  }

  lemma {:induction false} RunKeeps(ws: seq<World>, ts: seq<(nat, nat)>, i: nat)
    requires IsRun(ws, ts) && i < |ws|
    ensures Inv(ws[i])
  {
    if i > 0 {
      hide Inv, Step;
      RunKeeps(ws, ts, i - 1);
      StepKept(ws[i - 1], ts[i - 1].0, ts[i - 1].1, ws[i]);
    } else {
      assert Undecided(ws[0].threads) == {};
    }
  }

  // At most one worker; the word is 0 exactly when there is none and none is being started.
  lemma OneWorker(ws: seq<World>, ts: seq<(nat, nat)>, i: nat)
    requires IsRun(ws, ts) && i < |ws|
    ensures forall a, b :: a in ws[i].threads && b in ws[i].threads && Holder(ws[i].threads[a]) && Holder(ws[i].threads[b]) ==> a == b
    ensures ws[i].pending == 0 <==> NoHolder(ws[i])
  {
    hide IsRun, Count, Unserved;
    RunKeeps(ws, ts, i);
  }

  lemma {:induction false} ServedSince(log: seq<Entry>, i: nat)
    requires !Unserved(log) && i < |log| && (log[i].Won? || log[i].Saw?)
    ensures exists j :: i < j < |log| && log[j].Began?
    decreases |log|
  {
    var n := |log| - 1;
    if log[n].Began? {
      assert i < n;
    } else {
      ServedSince(log[..n], i);
      var j :| i < j < n && log[..n][j].Began?;
      assert log[j].Began?;
    }
  }

  // No lost wake-up: whenever the word is 0, every trigger that has settled was
  // followed by a handler call that began after it.
  lemma NoLostWakeup(ws: seq<World>, ts: seq<(nat, nat)>, i: nat, k: nat)
    requires IsRun(ws, ts) && i < |ws| && ws[i].pending == 0 && k < |ws[i].log| && (ws[i].log[k].Won? || ws[i].log[k].Saw?)
    ensures exists j :: k < j < |ws[i].log| && ws[i].log[j].Began?
  {
    hide IsRun, Count;
    RunKeeps(ws, ts, i);
    ServedSince(ws[i].log, k);
  }

  // Handler runs never exceed triggers, and when idle every win was one run.
  lemma RunsBounded(ws: seq<World>, ts: seq<(nat, nat)>, i: nat)
    requires IsRun(ws, ts) && i < |ws|
    ensures Count(ws[i].log, Began) <= Count(ws[i].log, Won) <= Count(ws[i].log, Called)
    ensures ws[i].pending == 0 ==> Count(ws[i].log, Began) == Count(ws[i].log, Won)
  {
    hide IsRun, Count, Unserved;
    RunKeeps(ws, ts, i);
  }

  // The workers of a run take at most four steps for each trigger, so they stop when triggers do.
  lemma WorkerStepsBounded(ws: seq<World>, ts: seq<(nat, nat)>, i: nat)
    requires IsRun(ws, ts) && i < |ws|
    ensures ws[i].steps <= 4 * Count(ws[i].log, Called)
  {
    hide IsRun, Count, Unserved;
    RunKeeps(ws, ts, i);
    RunsBounded(ws, ts, i);
  }
}
