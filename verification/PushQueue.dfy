// The durable delivery queue and the sections that read and change it
// (internal/push/sender.go:97-140, 180-216; internal/push/model.go:118-121).
module PushQueue {
  datatype Item = Item(id: string, subscription: string, kind: string, epoch: string, stamp: int, attempts: nat, next: int)

  const MAX_AGE: int := 300000
  const MAX_SKEW: int := 30000
  const BACKOFF: int := 5000

  // `allowed` maps each subscription to the kinds its preferences admit; `ok` is
  // false once the store is closed or a save failed.
  datatype Store = Store(queue: seq<Item>, allowed: map<string, set<string>>, epoch: string, ok: bool)

  predicate Current(item: Item, now: int) {
    item.stamp > 0 && now - item.stamp <= MAX_AGE && item.stamp - now <= MAX_SKEW
  }

  predicate InEpoch(item: Item, epoch: string) { item.kind == "test" || item.epoch == epoch }

  predicate Keeps(item: Item, now: int, epoch: string) {
    Current(item, now) && item.attempts < 3 && InEpoch(item, epoch)
  }

  predicate Queued(queue: seq<Item>, id: string, attempts: nat) {
    exists i :: 0 <= i < |queue| && queue[i].id == id && queue[i].attempts == attempts
  }

  // Dispatcher.current: may this snapshot item still be sent?
  predicate Deliverable(s: Store, item: Item, now: int) {
    && s.ok && Current(item, now) && item.subscription in s.allowed
    && (item.kind == "test" || item.kind in s.allowed[item.subscription]) && InEpoch(item, s.epoch)
    && Queued(s.queue, item.id, item.attempts)
  }

  // ---- the pending section ----

  function Kept(queue: seq<Item>, now: int, epoch: string): seq<Item> {
    if queue == [] then []
    else
      var n := |queue| - 1;
      Kept(queue[..n], now, epoch) + (if Keeps(queue[n], now, epoch) then [queue[n]] else [])
  }

  function Due(queue: seq<Item>, now: int, epoch: string): seq<Item> {
    if queue == [] then []
    else
      var n := |queue| - 1;
      Due(queue[..n], now, epoch) + (if Keeps(queue[n], now, epoch) && queue[n].next <= now then [queue[n]] else [])
  }

  // ---- the finish section ----

  // What becomes of the delivered item: a retry one attempt later, or nothing.
  function Settle(item: Item, transient: bool, now: int, epoch: string): seq<Item> {
    if transient && item.attempts < 2 && Current(item, now) && InEpoch(item, epoch) then
      [item.(attempts := item.attempts + 1, next := now + (item.attempts + 1) * BACKOFF)]
    else []
  }

  function Settled(queue: seq<Item>, id: string, transient: bool, now: int, epoch: string, allowed: map<string, set<string>>): seq<Item> {
    if queue == [] then []
    else
      var n := |queue| - 1;
      Settled(queue[..n], id, transient, now, epoch, allowed)
      + (if queue[n].subscription !in allowed then []
         else if queue[n].id != id then [queue[n]]
         else Settle(queue[n], transient, now, epoch))
  }

  function Finished(s: Store, item: Item, gone: bool, transient: bool, now: int): Store {
    if !Queued(s.queue, item.id, item.attempts) then s
    else
      var allowed := if gone then s.allowed - {item.subscription} else s.allowed;
      s.(allowed := allowed, queue := Settled(s.queue, item.id, transient, now, s.epoch, allowed))
  }

  // ---- what the sections keep ----

  predicate Unique(queue: seq<Item>) {
    forall i, j :: 0 <= i < j < |queue| ==> queue[i].id != queue[j].id
  }

  lemma {:induction false} KeptItems(queue: seq<Item>, now: int, epoch: string)
    ensures forall x :: x in Kept(queue, now, epoch) ==> x in queue && Keeps(x, now, epoch)
    ensures forall x :: x in Due(queue, now, epoch) ==> x in Kept(queue, now, epoch) && x.next <= now
    ensures forall x :: x in queue && Keeps(x, now, epoch) ==> x in Kept(queue, now, epoch)
    decreases |queue|
  {
    if queue != [] {
      KeptItems(queue[..|queue| - 1], now, epoch);
      assert queue == queue[..|queue| - 1] + [queue[|queue| - 1]];
    }
  }

  lemma {:induction false} KeptUnique(queue: seq<Item>, now: int, epoch: string)
    requires Unique(queue)
    ensures Unique(Kept(queue, now, epoch))
    decreases |queue|
  {
    if queue != [] {
      var n := |queue| - 1;
      KeptUnique(queue[..n], now, epoch);
      KeptItems(queue[..n], now, epoch);
      forall x | x in Kept(queue[..n], now, epoch) ensures x.id != queue[n].id {
        assert x in queue[..n];
      }
    }
  }

  // Every item after the section is an untouched other item, or the delivered item one attempt on.
  predicate SettledFrom(x: Item, queue: seq<Item>, id: string, transient: bool, now: int) {
    || (x in queue && x.id != id)
    || (exists y :: y in queue && y.id == id == x.id && transient && y.attempts < 2
          && x == y.(attempts := y.attempts + 1, next := now + (y.attempts + 1) * BACKOFF))
  }

  lemma {:induction false} SettledItems(queue: seq<Item>, id: string, transient: bool, now: int, epoch: string, allowed: map<string, set<string>>)
    ensures forall x :: x in Settled(queue, id, transient, now, epoch, allowed) ==> SettledFrom(x, queue, id, transient, now)
    decreases |queue|
  {
    if queue != [] {
      var n := |queue| - 1;
      SettledItems(queue[..n], id, transient, now, epoch, allowed);
      assert queue == queue[..n] + [queue[n]];
      forall x | x in Settled(queue, id, transient, now, epoch, allowed) ensures SettledFrom(x, queue, id, transient, now) {
        if x in Settled(queue[..n], id, transient, now, epoch, allowed) {
          assert SettledFrom(x, queue[..n], id, transient, now);
          if !(x in queue[..n] && x.id != id) {
            var y :| y in queue[..n] && y.id == id == x.id && transient && y.attempts < 2
                     && x == y.(attempts := y.attempts + 1, next := now + (y.attempts + 1) * BACKOFF);
            assert y in queue;
          }
        } else {
          assert queue[n] in queue;
        }
      }
    }
  }

  lemma {:induction false} SettledUnique(queue: seq<Item>, id: string, transient: bool, now: int, epoch: string, allowed: map<string, set<string>>)
    requires Unique(queue)
    ensures Unique(Settled(queue, id, transient, now, epoch, allowed))
    decreases |queue|
  {
    if queue != [] {
      var n := |queue| - 1;
      SettledUnique(queue[..n], id, transient, now, epoch, allowed);
      SettledItems(queue[..n], id, transient, now, epoch, allowed);
      forall x | x in Settled(queue[..n], id, transient, now, epoch, allowed) ensures x.id != queue[n].id {
        assert SettledFrom(x, queue[..n], id, transient, now);
      }
    }
  }

  // ---- the sections as the source runs them ----

  class Durable {
    var store: Store

    constructor (initial: Store)
      ensures store == initial
    {
      store := initial;
    }

    // Store.mutate: the change is kept only when it could be saved; a failed save
    // ends all delivery.
    method Commit(next: Store, changed: bool, saves: bool) returns (committed: bool)
      requires store.ok && next.ok && (!changed ==> next == store)
      modifies this
      ensures committed == (!changed || saves)
      ensures store == if committed then next else old(store).(ok := false)
    {
      if !changed {
        return true;
      }
      if !saves {
        store := store.(ok := false);
        return false;
      }
      store := next;
      return true;
    }

    // Dispatcher.pending filters the queue in one pass and returns what is due.
    method Pending(now: int, saves: bool) returns (items: seq<Item>)
      modifies this
      ensures !old(store.ok) ==> items == [] && store == old(store)
      ensures old(store.ok) ==>
        var kept := Kept(old(store.queue), now, old(store.epoch));
        if kept == old(store.queue) || saves then items == Due(old(store.queue), now, old(store.epoch)) && store == old(store).(queue := kept)
        else items == [] && store == old(store).(ok := false)
    {
      items := [];
      if !store.ok {
        return;
      }
      var queue, epoch := store.queue, store.epoch;
      var kept: seq<Item>, changed := [], false;
      var i := 0;
      while i < |queue|
        invariant i <= |queue| && store == old(store)
        invariant kept == Kept(queue[..i], now, epoch) && items == Due(queue[..i], now, epoch)
        invariant |kept| <= i && (changed <==> |kept| < i) && (!changed ==> kept == queue[..i])
      {
        assert queue[..i + 1][..i] == queue[..i];
        if !Current(queue[i], now) || queue[i].attempts >= 3 || (queue[i].kind != "test" && queue[i].epoch != epoch) {
          changed := true;
        } else {
          kept := kept + [queue[i]];
          if queue[i].next <= now {
            items := items + [queue[i]];
          }
        }
        i := i + 1;
      }
      assert queue[..i] == queue;
      var committed := Commit(store.(queue := kept), changed, saves);
      if !committed {
        items := [];
      }
    }

    // Dispatcher.current, an authoritative read under the store's lock.
    method IsCurrent(item: Item, now: int) returns (r: bool)
      ensures r == Deliverable(store, item, now)
    {
      if !store.ok || !Current(item, now) {
        return false;
      }
      if item.subscription !in store.allowed || !(item.kind == "test" || item.kind in store.allowed[item.subscription])
         || (item.kind != "test" && item.epoch != store.epoch) {
        return false;
      }
      r := Find(item);
    }

    method Find(item: Item) returns (present: bool)
      ensures present == Queued(store.queue, item.id, item.attempts)
    {
      var i := 0;
      while i < |store.queue|
        invariant i <= |store.queue|
        invariant forall k :: 0 <= k < i ==> !(store.queue[k].id == item.id && store.queue[k].attempts == item.attempts)
      {
        if store.queue[i].id == item.id && store.queue[i].attempts == item.attempts {
          return true;
        }
        i := i + 1;
      }
      return false;
    }

    // Dispatcher.finish: one pass over the queue after the delivery's outcome is known.
    method Finish(item: Item, gone: bool, transient: bool, now: int, saves: bool)
      modifies this
      ensures !old(store.ok) || !Queued(old(store.queue), item.id, item.attempts) ==> store == old(store)
      ensures old(store.ok) && Queued(old(store.queue), item.id, item.attempts) ==>
        store == Finished(old(store), item, gone, transient, now) || (!saves && store == old(store).(ok := false))
      ensures old(store.ok) && saves ==> store == Finished(old(store), item, gone, transient, now)
    {
      if !store.ok {
        return;
      }
      var present := Find(item);
      if !present {
        return;
      }
      var queue, epoch := store.queue, store.epoch;
      var allowed := if gone then store.allowed - {item.subscription} else store.allowed;
      var kept: seq<Item>, changed := [], false;
      var i := 0;
      while i < |queue|
        invariant i <= |queue| && store == old(store)
        invariant kept == Settled(queue[..i], item.id, transient, now, epoch, allowed)
        invariant (exists k :: 0 <= k < i && queue[k].id == item.id) ==> changed
      {
        assert queue[..i + 1][..i] == queue[..i];
        if queue[i].subscription !in allowed {
          changed := true;
        } else if queue[i].id != item.id {
          kept := kept + [queue[i]];
        } else {
          changed := true;
          if transient && queue[i].attempts < 2 && Current(queue[i], now) && (queue[i].kind == "test" || queue[i].epoch == epoch) {
            kept := kept + [queue[i].(attempts := queue[i].attempts + 1, next := now + (queue[i].attempts + 1) * BACKOFF)];
          }
        }
        i := i + 1;
      }
      assert queue[..i] == queue;
      var _ := Commit(store.(queue := kept, allowed := allowed), changed, saves);
    }
  }
}
