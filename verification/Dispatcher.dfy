// The dispatcher's run loop and its delivery workers, interleaved
// (internal/push/sender.go:61-95, 124-178, 180-216, 227-246).
module Dispatcher {
  import opened PushQueue

  datatype Stage = Begun | Passed | Cleared | Answered | Settling(gone: bool, transient: bool) | Leaving

  // A delivery goroutine with the item it copied from the queue snapshot.
  datatype Worker = Worker(item: Item, stage: Stage)

  datatype Send = Send(id: string, attempts: nat, at: int)

  // A retry was scheduled: the attempt it is for, and when the previous one was settled.
  datatype Retry = Retry(id: string, attempts: nat, at: int)

  datatype World = World(
    store: Store, inflight: set<string>, snapshot: seq<Item>, workers: map<nat, Worker>, now: int,
    sends: seq<Send>, retries: seq<Retry>, used: set<string>)
  {
    function To(w: nat, stage: Stage): World
      requires w in workers
    {
      this.(workers := workers[w := workers[w].(stage := stage)])
    }
  }

  // One step, with the outcomes the model leaves open: whether a save succeeds, what
  // the provider answers, whether the context or the time to live has ended.
  datatype Act =
    | Poll(saves: bool)
    | Take(worker: nat)
    | Check(worker: nat)
    | Skip(worker: nat)
    | Oversize(worker: nat)
    | Guard(worker: nat)
    | Expire(worker: nat)
    | Transmit(worker: nat)
    | Respond(worker: nat, gone: bool, transient: bool)
    | Finish(worker: nat, saves: bool)
    | Leave(worker: nat)
    | Clock(later: int)
    | Enqueue(item: Item)
    | Retire(ids: set<string>, allowed: map<string, set<string>>, epoch: string)
    | Fail

  predicate At(w: World, k: nat, stage: Stage) { k in w.workers && w.workers[k].stage == stage }

  predicate Can(w: World, a: Act) {
    match a
    case Poll(_) => w.snapshot == []
    case Take(k) => w.snapshot != [] && k !in w.workers
    case Check(k) => At(w, k, Begun)
    case Skip(k) => At(w, k, Passed)
    case Oversize(k) => At(w, k, Passed)
    case Guard(k) => At(w, k, Passed)
    case Expire(k) => At(w, k, Cleared)
    case Transmit(k) => At(w, k, Cleared)
    case Respond(k, _, _) => At(w, k, Answered)
    case Finish(k, _) => k in w.workers && w.workers[k].stage.Settling?
    case Leave(k) => At(w, k, Leaving)
    case Clock(later) => w.now <= later
    // A delivery's identity is new: the key is new to the dedupe window.
    case Enqueue(item) => w.store.ok && item.id !in w.used && item.attempts == 0 && item.next == 0
    case Retire(_, _, _) => w.store.ok
    case Fail => true
  }

  function Remaining(queue: seq<Item>, ids: set<string>): seq<Item> {
    if queue == [] then []
    else
      var n := |queue| - 1;
      Remaining(queue[..n], ids) + (if queue[n].id in ids then [] else [queue[n]])
  }

  // The sweep of the snapshot: stop at two deliveries, pass over one already in flight.
  function Sweep(w: World, k: nat): World
    requires w.snapshot != []
  {
    var item := w.snapshot[0];
    if |w.inflight| >= 2 then w.(snapshot := [])
    else if item.id in w.inflight then w.(snapshot := w.snapshot[1..])
    else w.(snapshot := w.snapshot[1..], inflight := w.inflight + {item.id}, workers := w.workers[k := Worker(item, Begun)])
  }

  function Polled(w: World, saves: bool): World {
    if !w.store.ok then w
    else
      var kept := Kept(w.store.queue, w.now, w.store.epoch);
      if kept == w.store.queue || saves then
        w.(store := w.store.(queue := kept), snapshot := Due(w.store.queue, w.now, w.store.epoch))
      else w.(store := w.store.(ok := false))
  }

  predicate Retries(w: World, item: Item, gone: bool, transient: bool) {
    && Queued(w.store.queue, item.id, item.attempts)
    && exists x :: x in Finished(w.store, item, gone, transient, w.now).queue && x.id == item.id
  }

  function Concluded(w: World, k: nat, gone: bool, transient: bool, saves: bool): World
    requires k in w.workers
  {
    var item := w.workers[k].item;
    if !w.store.ok || !Queued(w.store.queue, item.id, item.attempts) then w
    else if !saves then w.(store := w.store.(ok := false))
    else
      w.(store := Finished(w.store, item, gone, transient, w.now),
         retries := w.retries + (if Retries(w, item, gone, transient) then [Retry(item.id, item.attempts + 1, w.now)] else []))
  }

  function Do(w: World, a: Act): World
    requires Can(w, a)
  {
    match a
    case Poll(saves) => Polled(w, saves)
    case Take(k) => Sweep(w, k)
    case Check(k) => w.To(k, if Deliverable(w.store, w.workers[k].item, w.now) then Passed else Leaving)
    case Skip(k) => w.To(k, Leaving)
    case Oversize(k) => w.To(k, Settling(false, false))
    case Guard(k) => w.To(k, if Deliverable(w.store, w.workers[k].item, w.now) then Cleared else Settling(false, true))
    case Expire(k) => w.To(k, Settling(false, true))
    case Transmit(k) => w.To(k, Answered).(sends := w.sends + [Send(w.workers[k].item.id, w.workers[k].item.attempts, w.now)])
    case Respond(k, gone, transient) => w.To(k, Settling(gone, transient))
    case Finish(k, saves) => Concluded(w, k, w.workers[k].stage.gone, w.workers[k].stage.transient, saves).To(k, Leaving)
    case Leave(k) => w.(inflight := w.inflight - {w.workers[k].item.id}, workers := w.workers - {k})
    case Clock(later) => w.(now := later)
    case Enqueue(item) => w.(store := w.store.(queue := w.store.queue + [item]), used := w.used + {item.id})
    case Retire(ids, allowed, epoch) =>
      w.(store := w.store.(queue := Remaining(w.store.queue, ids), allowed := allowed, epoch := epoch))
    case Fail => w.(store := w.store.(ok := false))
  }

  ghost predicate Initial(w: World) {
    && w.inflight == {} && w.snapshot == [] && w.workers == map[] && w.sends == [] && w.retries == []
    && Unique(w.store.queue) && (forall x :: x in w.store.queue ==> x.attempts <= 3 && x.id in w.used)
  }

  // ---- the invariant ----

  // The item, a queue entry or a copy of one, waits for the time its retry was scheduled.
  ghost predicate Honours(item: Item, retries: seq<Retry>) {
    forall r :: r in retries && r.id == item.id && r.attempts == item.attempts ==> item.next == r.at + item.attempts * BACKOFF
  }

  ghost predicate QueueInv(w: World) {
    && Unique(w.store.queue)
    && forall x :: x in w.store.queue ==> x.id in w.used && x.attempts <= 3 && Honours(x, w.retries)
  }

  // A copy never runs ahead of the queue.
  ghost predicate Copy(w: World, item: Item) {
    && item.id in w.used && item.attempts <= 2 && item.next <= w.now && Honours(item, w.retries)
    && forall x :: x in w.store.queue && x.id == item.id ==> item.attempts <= x.attempts
  }

  ghost predicate CopiesInv(w: World) {
    && (forall x :: x in w.snapshot ==> Copy(w, x))
    && (forall k :: k in w.workers ==> Copy(w, w.workers[k].item))
  }

  // The in-flight set names the workers' deliveries, one each.
  ghost predicate FlightInv(w: World) {
    && |w.inflight| <= 2
    && (forall id :: id in w.inflight <==> exists k :: k in w.workers && w.workers[k].item.id == id)
    && (forall j, k :: j in w.workers && k in w.workers && j != k ==> w.workers[j].item.id != w.workers[k].item.id)
  }

  predicate Sent(w: World, id: string, attempts: nat) {
    exists i :: 0 <= i < |w.sends| && w.sends[i].id == id && w.sends[i].attempts == attempts
  }

  // After the transmission the worker is still to settle it.
  predicate Unsettled(stage: Stage) { stage.Answered? || stage.Settling? }

  // A sent attempt is gone from the queue, unless its own worker is still to settle
  // it or the store has failed.
  ghost predicate Retired(w: World, s: Send) {
    || !w.store.ok
    || (exists k :: k in w.workers && w.workers[k].item.id == s.id && w.workers[k].item.attempts == s.attempts && Unsettled(w.workers[k].stage))
    || (forall x :: x in w.store.queue && x.id == s.id ==> x.attempts > s.attempts)
  }

  ghost predicate SendsInv(w: World) {
    && (forall s :: s in w.sends ==> s.id in w.used && s.attempts <= 2 && Retired(w, s))
    && (forall i, j :: 0 <= i < j < |w.sends| ==> w.sends[i].id != w.sends[j].id || w.sends[i].attempts != w.sends[j].attempts)
    && (forall k :: k in w.workers && w.workers[k].stage.Cleared? ==> !Sent(w, w.workers[k].item.id, w.workers[k].item.attempts))
  }

  // A transmission never precedes the time its retry was scheduled for.
  ghost predicate BackoffInv(w: World) {
    && (forall s, r :: s in w.sends && r in w.retries && s.id == r.id && s.attempts == r.attempts ==> s.at >= r.at + s.attempts * BACKOFF)
    && (forall r :: r in w.retries ==> r.id in w.used && r.attempts >= 1)
    && (forall r, x :: r in w.retries && x in w.store.queue && x.id == r.id ==> x.attempts >= r.attempts)
  }

  ghost predicate Inv(w: World) {
    QueueInv(w) && CopiesInv(w) && FlightInv(w) && SendsInv(w) && BackoffInv(w)
  }

  // ---- steps ----

  // ---- what survives a change that leaves the queue's remaining items alone ----

  ghost predicate SameItems(w: World, w': World) {
    forall k :: k in w'.workers ==> k in w.workers && w'.workers[k].item == w.workers[k].item
  }

  lemma QueueSame(w: World, w': World)
    requires QueueInv(w) && w'.retries == w.retries && w.used <= w'.used && Unique(w'.store.queue)
    requires forall x :: x in w'.store.queue ==> x in w.store.queue
    ensures QueueInv(w')
  {
  }

  lemma CopiesSame(w: World, w': World)
    requires CopiesInv(w) && w'.retries == w.retries && w.used <= w'.used && w.now <= w'.now && SameItems(w, w')
    requires forall x :: x in w'.store.queue ==> x in w.store.queue || x.id !in w.used
    requires forall x :: x in w'.snapshot ==> x in w.snapshot
    ensures CopiesInv(w')
  {
    forall x | x in w'.snapshot ensures Copy(w', x) {
      assert Copy(w, x);
    }
    forall k | k in w'.workers ensures Copy(w', w'.workers[k].item) {
      assert Copy(w, w.workers[k].item);
    }
  }

  lemma FlightSame(w: World, w': World)
    requires FlightInv(w) && w'.inflight == w.inflight && w'.workers.Keys == w.workers.Keys && SameItems(w, w')
    ensures FlightInv(w')
  {
    forall id ensures id in w'.inflight <==> exists k :: k in w'.workers && w'.workers[k].item.id == id {
      if id in w.inflight {
        var k :| k in w.workers && w.workers[k].item.id == id;
        assert w'.workers[k].item.id == id;
      }
    }
  }

  // The workers that are still to settle a transmission stay at it.
  ghost predicate KeepsUnsettled(w: World, w': World) {
    forall k :: k in w.workers && Unsettled(w.workers[k].stage) ==>
      k in w'.workers && w'.workers[k].item == w.workers[k].item && Unsettled(w'.workers[k].stage)
  }

  lemma StillRetired(w: World, w': World, s: Send)
    requires Retired(w, s) && s.id in w.used && (w'.store.ok ==> w.store.ok) && KeepsUnsettled(w, w')
    requires forall x :: x in w'.store.queue ==> x in w.store.queue || x.id !in w.used
    ensures Retired(w', s)
  {
    if k :| k in w.workers && w.workers[k].item.id == s.id && w.workers[k].item.attempts == s.attempts && Unsettled(w.workers[k].stage) {
      assert w'.workers[k].item.id == s.id;
    }
  }

  lemma SendsSame(w: World, w': World)
    requires SendsInv(w) && w'.sends == w.sends && w.used <= w'.used && (w'.store.ok ==> w.store.ok) && KeepsUnsettled(w, w')
    requires forall x :: x in w'.store.queue ==> x in w.store.queue || x.id !in w.used
    requires forall k :: k in w'.workers && w'.workers[k].stage.Cleared? ==> !Sent(w, w'.workers[k].item.id, w'.workers[k].item.attempts)
    ensures SendsInv(w')
  {
    hide Retired, KeepsUnsettled;
    forall s | s in w'.sends ensures Retired(w', s) {
      StillRetired(w, w', s);
    }
    assert forall id, attempts :: Sent(w', id, attempts) <==> Sent(w, id, attempts);
  }

  lemma BackoffSame(w: World, w': World)
    requires BackoffInv(w) && w'.sends == w.sends && w'.retries == w.retries && w.used <= w'.used
    requires forall x :: x in w'.store.queue ==> x in w.store.queue || x.id !in w.used
    ensures BackoffInv(w')
  {
  }

  // A step that leaves every list but the queue alone, and takes from the queue at most.
  ghost predicate Quiet(w: World, w': World) {
    && w'.retries == w.retries && w'.sends == w.sends && w'.used == w.used && w'.snapshot == w.snapshot && w'.inflight == w.inflight
    && w.now <= w'.now && w'.workers.Keys == w.workers.Keys && (w'.store.ok ==> w.store.ok)
    && forall x :: x in w'.store.queue ==> x in w.store.queue
  }

  lemma Unsent(w: World)
    requires SendsInv(w)
    ensures forall k :: k in w.workers && w.workers[k].stage.Cleared? ==> !Sent(w, w.workers[k].item.id, w.workers[k].item.attempts)
  {
  }

  lemma Steady(w: World, w': World)
    requires Inv(w) && Quiet(w, w') && SameItems(w, w') && KeepsUnsettled(w, w') && Unique(w'.store.queue)
    requires forall k :: k in w'.workers && w'.workers[k].stage.Cleared? ==> !Sent(w, w'.workers[k].item.id, w'.workers[k].item.attempts)
    ensures Inv(w')
  {
    hide QueueInv, CopiesInv, FlightInv, SendsInv, BackoffInv, SameItems, KeepsUnsettled, Sent;
    QueueSame(w, w');
    CopiesSame(w, w');
    FlightSame(w, w');
    SendsSame(w, w');
    BackoffSame(w, w');
  }

  // A worker that only moves on.
  lemma Moves(w: World, k: nat, stage: Stage)
    requires Inv(w) && k in w.workers
    requires Unsettled(w.workers[k].stage) ==> Unsettled(stage)
    requires stage.Cleared? ==> !Sent(w, w.workers[k].item.id, w.workers[k].item.attempts)
    ensures Inv(w.To(k, stage))
  {
    InvUnique(w);
    Unsent(w);
    hide QueueInv, CopiesInv, FlightInv, SendsInv, BackoffInv, Sent;
    Steady(w, w.To(k, stage));
  }

  // At the guard the attempt has not been sent: nobody else may be settling it.
  lemma GuardUnsent(w: World, k: nat)
    requires Inv(w) && At(w, k, Passed) && Deliverable(w.store, w.workers[k].item, w.now)
    ensures !Sent(w, w.workers[k].item.id, w.workers[k].item.attempts)
  {
    var item := w.workers[k].item;
    if Sent(w, item.id, item.attempts) {
      var i :| 0 <= i < |w.sends| && w.sends[i].id == item.id && w.sends[i].attempts == item.attempts;
      var q :| 0 <= q < |w.store.queue| && w.store.queue[q].id == item.id && w.store.queue[q].attempts == item.attempts;
      assert w.store.queue[q] in w.store.queue;
      NotRetired(w, k, w.sends[i], w.store.queue[q]);
    }
  }

  lemma NotRetired(w: World, k: nat, s: Send, x: Item)
    requires FlightInv(w) && At(w, k, Passed) && w.workers[k].item.id == s.id && w.store.ok
    requires x in w.store.queue && x.id == s.id && x.attempts == s.attempts
    ensures !Retired(w, s)
  {
  }

  lemma Transmits(w: World, k: nat)
    requires Inv(w) && At(w, k, Cleared)
    ensures Inv(Do(w, Transmit(k)))
  {
    var w' := Do(w, Transmit(k));
    QueueSame(w, w');
    CopiesSame(w, w');
    FlightSame(w, w');
    TransmitSends(w, k);
    TransmitBackoff(w, k);
  }

  lemma TransmitSends(w: World, k: nat)
    requires Inv(w) && At(w, k, Cleared)
    ensures SendsInv(Do(w, Transmit(k)))
  {
    var w' := Do(w, Transmit(k));
    var item := w.workers[k].item;
    assert Copy(w, item);
    hide Copy, Honours;
    assert !Sent(w, item.id, item.attempts);
    forall x | x in w'.sends ensures x.id in w.used && x.attempts <= 2 && Retired(w', x) {
      if x in w.sends {
        StillRetired(w, w', x);
      } else {
        assert w'.workers[k].stage.Answered? && w'.workers[k].item.id == x.id;
      }
    }
    assert forall i :: 0 <= i < |w.sends| ==> w'.sends[i] == w.sends[i];
    forall j | j in w'.workers && w'.workers[j].stage.Cleared? ensures !Sent(w', w'.workers[j].item.id, w'.workers[j].item.attempts) {
      assert j != k && !Sent(w, w.workers[j].item.id, w.workers[j].item.attempts);
    }
  }

  lemma TransmitBackoff(w: World, k: nat)
    requires Inv(w) && At(w, k, Cleared)
    ensures BackoffInv(Do(w, Transmit(k)))
  {
    var w' := Do(w, Transmit(k));
    var item := w.workers[k].item;
    hide Retired, Sent;
    assert Copy(w, item);
    forall x, r | x in w'.sends && r in w'.retries && x.id == r.id && x.attempts == r.attempts ensures x.at >= r.at + x.attempts * BACKOFF {
      if x !in w.sends {
        assert Honours(item, w.retries);
      }
    }
  }

  // A queue that only loses items keeps everything.
  lemma Shrinks(w: World, store: Store)
    requires Inv(w) && Unique(store.queue) && (store.ok ==> w.store.ok) && forall x :: x in store.queue ==> x in w.store.queue
    ensures Inv(w.(store := store))
  {
    Unsent(w);
    hide QueueInv, CopiesInv, FlightInv, SendsInv, BackoffInv, Sent;
    Steady(w, w.(store := store));
  }

  lemma {:induction false} RemainingItems(queue: seq<Item>, ids: set<string>)
    requires Unique(queue)
    ensures Unique(Remaining(queue, ids)) && forall x :: x in Remaining(queue, ids) ==> x in queue
    decreases |queue|
  {
    if queue != [] {
      var n := |queue| - 1;
      RemainingItems(queue[..n], ids);
      assert queue == queue[..n] + [queue[n]];
      forall x | x in Remaining(queue[..n], ids) ensures x.id != queue[n].id {
        assert x in queue[..n];
      }
    }
  }

  lemma Polls(w: World, saves: bool)
    requires Inv(w) && w.snapshot == []
    ensures Inv(Polled(w, saves))
  {
    hide Retired, Sent, Kept, Due, Honours, FlightInv, BackoffInv, SendsInv, CopiesInv;
    var kept := Kept(w.store.queue, w.now, w.store.epoch);
    KeptItems(w.store.queue, w.now, w.store.epoch);
    KeptUnique(w.store.queue, w.now, w.store.epoch);
    if w.store.ok && (kept == w.store.queue || saves) {
      var store := w.store.(queue := kept);
      Shrinks(w, store);
      var v := w.(store := store);
      var items := Due(w.store.queue, w.now, w.store.epoch);
      forall x | x in items ensures Copy(v, x) {
        OwnCopy(v, x);
      }
      Snapped(v, items);
    } else if w.store.ok {
      Shrinks(w, w.store.(ok := false));
    }
  }

  // A due item of the queue is a faithful copy of itself.
  lemma OwnCopy(w: World, x: Item)
    requires Inv(w) && x in w.store.queue && x.attempts <= 2 && x.next <= w.now
    ensures Copy(w, x)
  {
    forall y | y in w.store.queue && y.id == x.id ensures x.attempts <= y.attempts {
      assert y == x;
    }
  }

  lemma Snapped(v: World, items: seq<Item>)
    requires Inv(v) && forall x :: x in items ==> Copy(v, x)
    ensures Inv(v.(snapshot := items))
  {
    var w' := v.(snapshot := items);
    assert forall x :: Copy(v, x) ==> Copy(w', x);
    assert CopiesInv(w');
    InvUnique(v);
    Unsent(v);
    hide QueueInv, CopiesInv, FlightInv, SendsInv, BackoffInv, Sent, Copy;
    QueueSame(v, w');
    FlightSame(v, w');
    SendsSame(v, w');
    BackoffSame(v, w');
  }

  lemma Sweeps(w: World, k: nat)
    requires Inv(w) && w.snapshot != [] && k !in w.workers
    ensures Inv(Sweep(w, k))
  {
    var item := w.snapshot[0];
    assert forall x :: x in w.snapshot ==> Copy(w, x);
    hide Copy, QueueInv, SendsInv, BackoffInv, FlightInv;
    if |w.inflight| >= 2 {
      Snapped(w, []);
    } else {
      assert forall x :: x in w.snapshot[1..] ==> Copy(w, x);
      Snapped(w, w.snapshot[1..]);
      if item.id !in w.inflight {
        SameCopy(w, w.snapshot[1..], item);
        Spawns(w.(snapshot := w.snapshot[1..]), k, item);
      }
    }
  }

  lemma SameCopy(w: World, items: seq<Item>, item: Item)
    requires Copy(w, item)
    ensures Copy(w.(snapshot := items), item)
  {
  }

  function Spawned(w: World, k: nat, item: Item): World {
    w.(inflight := w.inflight + {item.id}, workers := w.workers[k := Worker(item, Begun)])
  }

  lemma Spawns(w: World, k: nat, item: Item)
    requires Inv(w) && k !in w.workers && Copy(w, item) && item.id !in w.inflight && |w.inflight| < 2
    ensures Inv(Spawned(w, k, item))
  {
    var w' := Spawned(w, k, item);
    SpawnSends(w, k, item);
    InvUnique(w);
    SpawnFlight(w, w', k, item);
    SpawnCopies(w, w', k, item);
    hide QueueInv, CopiesInv, FlightInv, SendsInv, BackoffInv, Copy;
    QueueSame(w, w');
    BackoffSame(w, w');
  }

  lemma SpawnSends(w: World, k: nat, item: Item)
    requires SendsInv(w) && k !in w.workers
    ensures SendsInv(Spawned(w, k, item))
  {
    var w' := Spawned(w, k, item);
    Unsent(w);
    hide SendsInv, Sent;
    forall j | j in w'.workers && w'.workers[j].stage.Cleared? ensures !Sent(w, w'.workers[j].item.id, w'.workers[j].item.attempts) {
      assert j in w.workers && w'.workers[j] == w.workers[j];
    }
    assert KeepsUnsettled(w, w');
    hide KeepsUnsettled;
    SendsSame(w, w');
  }

  lemma SpawnCopies(w: World, w': World, k: nat, item: Item)
    requires CopiesInv(w) && Copy(w, item)
    requires w' == w.(inflight := w.inflight + {item.id}, workers := w.workers[k := Worker(item, Begun)])
    ensures CopiesInv(w')
  {
    assert forall x :: Copy(w, x) ==> Copy(w', x);
  }

  lemma SpawnFlight(w: World, w': World, k: nat, item: Item)
    requires FlightInv(w) && k !in w.workers && item.id !in w.inflight && |w.inflight| < 2
    requires w' == w.(inflight := w.inflight + {item.id}, workers := w.workers[k := Worker(item, Begun)])
    ensures FlightInv(w')
  {
    assert forall j :: j in w.workers ==> w'.workers[j] == w.workers[j];
    forall id ensures id in w'.inflight <==> exists j :: j in w'.workers && w'.workers[j].item.id == id {
      if id in w.inflight {
        var j :| j in w.workers && w.workers[j].item.id == id;
        assert w'.workers[j].item.id == id;
      }
      if id == item.id {
        assert w'.workers[k].item.id == id;
      }
    }
  }

  lemma Leaves(w: World, k: nat)
    requires Inv(w) && At(w, k, Leaving)
    ensures Inv(Do(w, Leave(k)))
  {
    var w' := Do(w, Leave(k));
    InvUnique(w);
    Unsent(w);
    hide QueueInv, CopiesInv, FlightInv, SendsInv, BackoffInv, Sent;
    QueueSame(w, w');
    CopiesSame(w, w');
    SendsSame(w, w');
    BackoffSame(w, w');
    LeaveFlight(w, k);
  }

  lemma LeaveFlight(w: World, k: nat)
    requires FlightInv(w) && At(w, k, Leaving)
    ensures FlightInv(Do(w, Leave(k)))
  {
    var w' := Do(w, Leave(k));
    forall id ensures id in w'.inflight <==> exists j :: j in w'.workers && w'.workers[j].item.id == id {
      if id in w'.inflight {
        var j :| j in w.workers && w.workers[j].item.id == id;
        assert j in w'.workers;
      }
    }
  }

  lemma Ticks(w: World, later: int)
    requires Inv(w) && w.now <= later
    ensures Inv(w.(now := later))
  {
    InvUnique(w);
    Unsent(w);
    hide QueueInv, CopiesInv, FlightInv, SendsInv, BackoffInv, Sent;
    Steady(w, w.(now := later));
  }

  lemma Enqueues(w: World, item: Item)
    requires Inv(w) && Can(w, Enqueue(item))
    ensures Inv(Do(w, Enqueue(item)))
  {
    var w' := Do(w, Enqueue(item));
    EnqueueQueue(w, item);
    hide Sent, Honours, Copy, Retired;
    assert forall x :: x in w'.store.queue ==> x in w.store.queue || x == item;
    CopiesSame(w, w');
    FlightSame(w, w');
    SendsSame(w, w');
    BackoffSame(w, w');
  }

  lemma EnqueueQueue(w: World, item: Item)
    requires QueueInv(w) && BackoffInv(w) && Can(w, Enqueue(item))
    ensures QueueInv(Do(w, Enqueue(item)))
  {
    assert forall x :: x in w.store.queue ==> x.id != item.id;
  }

  // ---- settling a delivery ----

  // The queue after a settlement, seen from the invariant.
  ghost predicate Outcome(w: World, item: Item, queue: seq<Item>, retried: bool) {
    && Unique(queue)
    && (forall x :: x in queue && x.id != item.id ==> x in w.store.queue)
    && (forall x :: x in queue && x.id == item.id ==> x.attempts == item.attempts + 1 <= 2 && x.next == w.now + x.attempts * BACKOFF)
    && (retried <==> exists x :: x in queue && x.id == item.id)
  }

  lemma SettledOutcome(w: World, item: Item, gone: bool, transient: bool)
    requires Inv(w) && w.store.ok && Queued(w.store.queue, item.id, item.attempts)
    ensures Outcome(w, item, Finished(w.store, item, gone, transient, w.now).queue, Retries(w, item, gone, transient))
  {
    var allowed := if gone then w.store.allowed - {item.subscription} else w.store.allowed;
    SettledItems(w.store.queue, item.id, transient, w.now, w.store.epoch, allowed);
    SettledUnique(w.store.queue, item.id, transient, w.now, w.store.epoch, allowed);
    var queue := Finished(w.store, item, gone, transient, w.now).queue;
    var q :| 0 <= q < |w.store.queue| && w.store.queue[q].id == item.id && w.store.queue[q].attempts == item.attempts;
    forall x | x in queue ensures x.id != item.id ==> x in w.store.queue
      ensures x.id == item.id ==> x.attempts == item.attempts + 1 <= 2 && x.next == w.now + x.attempts * BACKOFF
    {
      assert SettledFrom(x, w.store.queue, item.id, transient, w.now);
    }
  }

  function Settlement(w: World, k: nat, store: Store, retried: bool): World
    requires k in w.workers
  {
    var item := w.workers[k].item;
    w.(store := store, retries := w.retries + (if retried then [Retry(item.id, item.attempts + 1, w.now)] else [])).To(k, Leaving)
  }

  lemma Settles(w: World, k: nat, store: Store, retried: bool)
    requires Inv(w) && k in w.workers && Unsettled(w.workers[k].stage) && w.store.ok
    requires var item := w.workers[k].item; Queued(w.store.queue, item.id, item.attempts) && Outcome(w, item, store.queue, retried)
    ensures Inv(Settlement(w, k, store, retried))
  {
    var w' := Settlement(w, k, store, retried);
    SettledChange(w, k, store, retried);
    hide QueueInv, CopiesInv, FlightInv, SendsInv, BackoffInv, Outcome, Queued, Change, Settlement;
    SettledQueue(w, w', w.workers[k].item, retried);
    SettledCopies(w, w', w.workers[k].item, retried);
    SettledSends(w, w', k, retried);
    SettledBackoff(w, w', w.workers[k].item, retried);
  }

  lemma SettledChange(w: World, k: nat, store: Store, retried: bool)
    requires Inv(w) && k in w.workers
    requires var item := w.workers[k].item; Queued(w.store.queue, item.id, item.attempts) && Outcome(w, item, store.queue, retried)
    ensures var w' := Settlement(w, k, store, retried);
      && Change(w, w', w.workers[k].item, retried) && FlightInv(w')
      && w'.workers == w.workers[k := w.workers[k].(stage := Leaving)]
  {
    hide QueueInv, CopiesInv, SendsInv, BackoffInv, FlightInv, Outcome, Below, Queued;
    CopyOf(w, k);
    OldCopies(w, w.workers[k].item);
    SettledFlight(w, k, store, retried);
  }

  lemma SettledFlight(w: World, k: nat, store: Store, retried: bool)
    requires FlightInv(w) && k in w.workers
    ensures FlightInv(Settlement(w, k, store, retried))
  {
    hide FlightInv;
    FlightSame(w, Settlement(w, k, store, retried));
  }

  lemma CopyOf(w: World, k: nat)
    requires Inv(w) && k in w.workers
    ensures w.workers[k].item.attempts <= 2
  {
    hide Honours, QueueInv, SendsInv, BackoffInv, FlightInv;
    assert Copy(w, w.workers[k].item);
  }

  // Every copy, every send and every retry of the settled delivery is at or below the settled attempt.
  ghost predicate Below(w: World, item: Item) {
    && (forall x :: x in w.snapshot && x.id == item.id ==> x.attempts <= item.attempts)
    && (forall j :: j in w.workers && w.workers[j].item.id == item.id ==> w.workers[j].item.attempts <= item.attempts)
    && (forall r :: r in w.retries && r.id == item.id ==> r.attempts <= item.attempts)
    && item.id in w.used && item.attempts <= 2
  }

  lemma OldCopies(w: World, item: Item)
    requires Inv(w) && Queued(w.store.queue, item.id, item.attempts) && item.attempts <= 2
    ensures Below(w, item)
  {
    var q :| 0 <= q < |w.store.queue| && w.store.queue[q].id == item.id && w.store.queue[q].attempts == item.attempts;
    var queued := w.store.queue[q];
    assert queued in w.store.queue;
    forall x | x in w.snapshot && x.id == item.id ensures x.attempts <= item.attempts {
      assert Copy(w, x);
    }
    forall j | j in w.workers && w.workers[j].item.id == item.id ensures w.workers[j].item.attempts <= item.attempts {
      assert Copy(w, w.workers[j].item);
    }
  }

  // What settling changes, as far as the invariant is concerned.
  ghost predicate Change(w: World, w': World, item: Item, retried: bool) {
    && Outcome(w, item, w'.store.queue, retried) && Below(w, item)
    && w'.snapshot == w.snapshot && w'.now == w.now && w'.sends == w.sends && w'.used == w.used && w'.inflight == w.inflight
    && w'.retries == w.retries + (if retried then [Retry(item.id, item.attempts + 1, w.now)] else [])
    && w'.workers.Keys == w.workers.Keys && forall j :: j in w.workers ==> w'.workers[j].item == w.workers[j].item
  }

  lemma SettledQueue(w: World, w': World, item: Item, retried: bool)
    requires Inv(w) && Change(w, w', item, retried)
    ensures QueueInv(w')
  {
    forall x | x in w'.store.queue ensures Honours(x, w'.retries) && x.id in w'.used && x.attempts <= 3 {
      if x.id != item.id {
        assert Honours(x, w.retries);
      }
    }
  }

  lemma SettledCopies(w: World, w': World, item: Item, retried: bool)
    requires Inv(w) && Change(w, w', item, retried)
    ensures CopiesInv(w')
  {
    forall x | x in w'.snapshot ensures Copy(w', x) {
      assert Copy(w, x);
    }
    forall j | j in w'.workers ensures Copy(w', w'.workers[j].item) {
      assert Copy(w, w.workers[j].item);
    }
  }

  lemma SettledBackoff(w: World, w': World, item: Item, retried: bool)
    requires Inv(w) && Change(w, w', item, retried) && forall s :: s in w.sends && s.id == item.id ==> s.attempts <= item.attempts
    ensures BackoffInv(w')
  {
  }

  lemma SettledSends(w: World, w': World, k: nat, retried: bool)
    requires Inv(w) && k in w.workers && Change(w, w', w.workers[k].item, retried) && w.store.ok
    requires w'.workers == w.workers[k := w.workers[k].(stage := Leaving)]
    requires Queued(w.store.queue, w.workers[k].item.id, w.workers[k].item.attempts)
    ensures SendsInv(w') && forall s :: s in w.sends && s.id == w.workers[k].item.id ==> s.attempts <= w.workers[k].item.attempts
  {
    hide Retired, Outcome, Below, Copy, QueueInv, CopiesInv, BackoffInv;
    forall s | s in w.sends ensures Retired(w', s) && (s.id == w.workers[k].item.id ==> s.attempts <= w.workers[k].item.attempts) {
      SettledSend(w, w', k, s, retried);
    }
    assert forall j :: j in w'.workers && w'.workers[j].stage.Cleared? ==> !Sent(w, w.workers[j].item.id, w.workers[j].item.attempts);
  }

  lemma SettledSend(w: World, w': World, k: nat, s: Send, retried: bool)
    requires s in w.sends && Retired(w, s) && FlightInv(w) && k in w.workers && Outcome(w, w.workers[k].item, w'.store.queue, retried) && w.store.ok
    requires w'.workers == w.workers[k := w.workers[k].(stage := Leaving)]
    requires Queued(w.store.queue, w.workers[k].item.id, w.workers[k].item.attempts)
    ensures Retired(w', s) && (s.id == w.workers[k].item.id ==> s.attempts <= w.workers[k].item.attempts)
  {
    var item := w.workers[k].item;
    if s.id != item.id {
      if j :| j in w.workers && w.workers[j].item.id == s.id && w.workers[j].item.attempts == s.attempts && Unsettled(w.workers[j].stage) {
        assert j != k && w'.workers[j] == w.workers[j];
      }
    } else {
      var q :| 0 <= q < |w.store.queue| && w.store.queue[q].id == item.id && w.store.queue[q].attempts == item.attempts;
      assert w.store.queue[q] in w.store.queue;
    }
  }

  // A delivery already gone from the queue, or a store that has failed: nothing to settle.
  lemma Vanishes(w: World, k: nat)
    requires Inv(w) && k in w.workers && (!w.store.ok || !Queued(w.store.queue, w.workers[k].item.id, w.workers[k].item.attempts))
    ensures Inv(w.To(k, Leaving))
  {
    var w' := w.To(k, Leaving);
    VanishSends(w, k);
    hide Sent, Honours, Copy, Retired, SendsInv;
    QueueSame(w, w');
    CopiesSame(w, w');
    FlightSame(w, w');
    BackoffSame(w, w');
  }

  lemma VanishSends(w: World, k: nat)
    requires Inv(w) && k in w.workers && (!w.store.ok || !Queued(w.store.queue, w.workers[k].item.id, w.workers[k].item.attempts))
    ensures SendsInv(w.To(k, Leaving))
  {
    var w' := w.To(k, Leaving);
    var item := w.workers[k].item;
    assert Copy(w, item);
    hide Honours, QueueInv, FlightInv, BackoffInv;
    forall s | s in w'.sends ensures Retired(w', s) {
      assert Retired(w, s);
      if j :| j in w.workers && w.workers[j].item.id == s.id && w.workers[j].item.attempts == s.attempts && Unsettled(w.workers[j].stage) {
        if j == k && w.store.ok {
          forall x | x in w.store.queue && x.id == s.id ensures x.attempts > s.attempts {
            var i :| 0 <= i < |w.store.queue| && w.store.queue[i] == x;
            assert x.attempts != item.attempts;
          }
        } else if j != k {
          assert w'.workers[j] == w.workers[j];
        }
      }
    }
    forall j | j in w'.workers && w'.workers[j].stage.Cleared? ensures !Sent(w', w'.workers[j].item.id, w'.workers[j].item.attempts) {
      assert !Sent(w, w.workers[j].item.id, w.workers[j].item.attempts);
    }
  }

  lemma Finishes(w: World, k: nat, saves: bool)
    requires Inv(w) && Can(w, Finish(k, saves))
    ensures Inv(Do(w, Finish(k, saves)))
  {
    hide Inv, Finished, Retries, Queued, Outcome;
    var item := w.workers[k].item;
    var Settling(gone, transient) := w.workers[k].stage;
    if !w.store.ok || !Queued(w.store.queue, item.id, item.attempts) {
      Vanishes(w, k);
    } else if !saves {
      InvUnique(w);
      Shrinks(w, w.store.(ok := false));
      Vanishes(w.(store := w.store.(ok := false)), k);
    } else {
      SettledOutcome(w, item, gone, transient);
      Settles(w, k, Finished(w.store, item, gone, transient, w.now), Retries(w, item, gone, transient));
    }
  }

  lemma StepKept(w: World, a: Act)
    requires Inv(w) && Can(w, a)
    ensures Inv(Do(w, a))
  {
    hide Inv, Deliverable, Kept, Due, Settled, Concluded, Polled, Sweep;
    match a
    case Poll(saves) => Polls(w, saves);
    case Take(k) => Sweeps(w, k);
    case Check(k) => Moves(w, k, if Deliverable(w.store, w.workers[k].item, w.now) then Passed else Leaving);
    case Skip(k) => Moves(w, k, Leaving);
    case Oversize(k) => Moves(w, k, Settling(false, false));
    case Guard(k) =>
      if Deliverable(w.store, w.workers[k].item, w.now) {
        GuardUnsent(w, k);
        Moves(w, k, Cleared);
      } else {
        Moves(w, k, Settling(false, true));
      }
    case Expire(k) => Moves(w, k, Settling(false, true));
    case Transmit(k) => Transmits(w, k);
    case Respond(k, gone, transient) => Moves(w, k, Settling(gone, transient));
    case Finish(k, saves) => Finishes(w, k, saves);
    case Leave(k) => Leaves(w, k);
    case Clock(later) => Ticks(w, later);
    case Enqueue(item) => Enqueues(w, item);
    case Retire(ids, allowed, epoch) =>
      InvUnique(w);
      RemainingItems(w.store.queue, ids);
      Shrinks(w, w.store.(queue := Remaining(w.store.queue, ids), allowed := allowed, epoch := epoch));
    case Fail =>
      InvUnique(w);
      Shrinks(w, w.store.(ok := false));
  }

  lemma InvUnique(w: World)
    requires Inv(w)
    ensures Unique(w.store.queue)
  {
  }

  // ---- runs ----

  ghost predicate IsRun(ws: seq<World>, acts: seq<Act>) {
    && |ws| == |acts| + 1 && Initial(ws[0])
    && forall i :: 0 <= i < |acts| ==> Can(ws[i], acts[i]) && ws[i + 1] == Do(ws[i], acts[i])
  }

  lemma InitialInv(w: World)
    requires Initial(w)
    ensures Inv(w)
  {
  }

  lemma {:induction false} RunKeeps(ws: seq<World>, acts: seq<Act>, i: nat)
    requires IsRun(ws, acts) && i < |ws|
    ensures Inv(ws[i])
  {
    hide Inv, Can, Do, Initial;
    if i == 0 {
      InitialInv(ws[0]);
    } else {
      RunKeeps(ws, acts, i - 1);
      StepKept(ws[i - 1], acts[i - 1]);
    }
  }

  // Each (ID, attempt) is transmitted at most once in the whole run.
  lemma SentOncePerAttempt(ws: seq<World>, acts: seq<Act>, i: nat, a: nat, b: nat)
    requires IsRun(ws, acts) && i < |ws| && a < b < |ws[i].sends|
    ensures ws[i].sends[a].id != ws[i].sends[b].id || ws[i].sends[a].attempts != ws[i].sends[b].attempts
  {
    hide IsRun;
    RunKeeps(ws, acts, i);
    assert SendsInv(ws[i]);
  }

  function Transmissions(sends: seq<Send>, id: string): nat {
    if sends == [] then 0 else Transmissions(sends[..|sends| - 1], id) + (if sends[|sends| - 1].id == id then 1 else 0)
  }

  function Attempts(sends: seq<Send>, id: string): set<nat> {
    set s | s in sends && s.id == id :: s.attempts
  }

  ghost predicate Distinct(sends: seq<Send>) {
    forall i, j :: 0 <= i < j < |sends| ==> sends[i].id != sends[j].id || sends[i].attempts != sends[j].attempts
  }

  lemma LastAttempt(sends: seq<Send>, id: string)
    requires sends != [] && Distinct(sends)
    ensures var n := |sends| - 1;
      && Distinct(sends[..n])
      && (sends[n].id != id ==> Attempts(sends, id) == Attempts(sends[..n], id))
      && (sends[n].id == id ==> Attempts(sends, id) == Attempts(sends[..n], id) + {sends[n].attempts})
      && (sends[n].id == id ==> sends[n].attempts !in Attempts(sends[..n], id))
  {
    var n := |sends| - 1;
    assert sends == sends[..n] + [sends[n]];
    assert forall s :: s in sends <==> s in sends[..n] || s == sends[n];
    forall s | s in sends[..n] && s.id == sends[n].id ensures s.attempts != sends[n].attempts {
      var i :| 0 <= i < n && sends[i] == s;
    }
  }

  lemma {:induction false} CountAttempts(sends: seq<Send>, id: string)
    requires Distinct(sends)
    ensures Transmissions(sends, id) == |Attempts(sends, id)|
    decreases |sends|
  {
    if sends == [] {
      assert Attempts(sends, id) == {};
    } else {
      LastAttempt(sends, id);
      hide Distinct, Attempts;
      CountAttempts(sends[..|sends| - 1], id);
    }
  }

  // However stale its snapshots, the dispatcher transmits each delivery at most three times.
  lemma SentAtMostThreeTimes(ws: seq<World>, acts: seq<Act>, i: nat, id: string)
    requires IsRun(ws, acts) && i < |ws|
    ensures Transmissions(ws[i].sends, id) <= 3
  {
    hide IsRun, Retired, Sent;
    RunKeeps(ws, acts, i);
    assert SendsInv(ws[i]);
    CountAttempts(ws[i].sends, id);
    SmallSet(Attempts(ws[i].sends, id));
  }

  lemma SmallSet(s: set<nat>)
    requires forall n :: n in s ==> n <= 2
    ensures |s| <= 3
  {
    assert |s - {0} - {1} - {2}| >= |s| - 3;
    assert s - {0} - {1} - {2} == {};
  }

  // At most two deliveries are in flight, never two of the same delivery.
  lemma NeverConcurrent(ws: seq<World>, acts: seq<Act>, i: nat)
    requires IsRun(ws, acts) && i < |ws|
    ensures |ws[i].workers.Keys| <= 2
    ensures forall j, k :: j in ws[i].workers && k in ws[i].workers && j != k ==> ws[i].workers[j].item.id != ws[i].workers[k].item.id
  {
    hide IsRun;
    RunKeeps(ws, acts, i);
    WorkersCounted(ws[i].workers, ws[i].inflight);
  }

  lemma {:induction false} WorkersCounted(workers: map<nat, Worker>, ids: set<string>)
    requires forall k :: k in workers ==> workers[k].item.id in ids
    requires forall j, k :: j in workers && k in workers && j != k ==> workers[j].item.id != workers[k].item.id
    ensures |workers.Keys| <= |ids|
    decreases |workers|
  {
    if workers.Keys != {} {
      var k :| k in workers.Keys;
      assert |workers.Keys - {k}| == |workers.Keys| - 1;
      var rest := workers - {k};
      assert rest.Keys == workers.Keys - {k};
      WorkersCounted(rest, ids - {workers[k].item.id});
    }
  }

  // A retry is never transmitted before its backoff has passed.
  lemma RetryWaits(ws: seq<World>, acts: seq<Act>, i: nat, s: Send, r: Retry)
    requires IsRun(ws, acts) && i < |ws| && s in ws[i].sends && r in ws[i].retries && s.id == r.id && s.attempts == r.attempts
    ensures s.at >= r.at + s.attempts * BACKOFF
  {
    hide IsRun;
    RunKeeps(ws, acts, i);
    assert BackoffInv(ws[i]);
  }

  // While the store works, a transmitted attempt that nobody is settling is no
  // longer in the queue, so no later snapshot can offer it again.
  lemma TransmittedIsRetired(ws: seq<World>, acts: seq<Act>, i: nat, s: Send)
    requires IsRun(ws, acts) && i < |ws| && s in ws[i].sends && ws[i].store.ok
    requires forall k :: k in ws[i].workers ==> !Unsettled(ws[i].workers[k].stage)
    ensures !Queued(ws[i].store.queue, s.id, s.attempts)
  {
    hide IsRun;
    RunKeeps(ws, acts, i);
    assert Retired(ws[i], s);
  }

  // ---- a failed store ----

  // A worker stands between the guard and the transmission of this attempt.
  ghost predicate PassedGuard(w: World, id: string, attempts: nat) {
    exists k :: At(w, k, Cleared) && w.workers[k].item.id == id && w.workers[k].item.attempts == attempts
  }

  ghost predicate OnlyPassed(v: World, w: World) {
    && (forall k :: At(w, k, Cleared) ==> PassedGuard(v, w.workers[k].item.id, w.workers[k].item.attempts))
    && (forall s :: s in w.sends ==> s in v.sends || PassedGuard(v, s.id, s.attempts))
  }

  lemma FailedStep(v: World, w: World, a: Act)
    requires !w.store.ok && Can(w, a) && OnlyPassed(v, w)
    ensures var w' := Do(w, a);
      !w'.store.ok && w'.store.queue == w.store.queue && OnlyPassed(v, w')
  {
    hide Kept, Due, Finished, Retries, Queued, PassedGuard;
    var w' := Do(w, a);
    forall k | At(w', k, Cleared) ensures PassedGuard(v, w'.workers[k].item.id, w'.workers[k].item.attempts) {
      assert At(w, k, Cleared);
    }
  }

  lemma OnlyPassedSelf(w: World)
    ensures OnlyPassed(w, w)
  {
  }

  // A failed save is the end of delivery: the queue never changes again, and nothing is
  // transmitted but what had already passed the guard.
  lemma {:induction false} FailureIsFinal(ws: seq<World>, acts: seq<Act>, i: nat, j: nat)
    requires IsRun(ws, acts) && i <= j < |ws| && !ws[i].store.ok
    ensures !ws[j].store.ok && ws[j].store.queue == ws[i].store.queue && OnlyPassed(ws[i], ws[j])
    decreases j - i
  {
    if i == j {
      OnlyPassedSelf(ws[i]);
    } else {
      hide Can, Do, OnlyPassed, Initial;
      FailureIsFinal(ws, acts, i, j - 1);
      FailedStep(ws[i], ws[j - 1], acts[j - 1]);
    }
  }
}
