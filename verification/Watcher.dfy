/** The watcher and the service as objects, and whole sessions of the two. */
module Watcher {
  import opened Credentials
  import opened Ordering
  import opened UpdateQueue

  class Watcher {
    var currentAuths: Auths
    var runtimeAuths: Auths
    var pendingUpdates: map<Key, Update>
    var pendingOrder: seq<Key>
    var hasQueue: bool           // a consumer's channel is set

    function Pending(): Queue
      reads `pendingOrder, `pendingUpdates
    {
      Queue(pendingOrder, pendingUpdates)
    }

    constructor (hasQueue: bool)
      ensures currentAuths == map[] && runtimeAuths == map[] && Pending() == NO_QUEUE && this.hasQueue == hasQueue
    {
      currentAuths, runtimeAuths, pendingUpdates, pendingOrder := map[], map[], map[], [];
      this.hasQueue := hasQueue;
    }

    method DispatchAuthUpdates(updates: seq<Update>, now: int)
      modifies `pendingUpdates, `pendingOrder
      ensures Pending() == if hasQueue then EnqueueAll(old(Pending()), updates, now) else old(Pending())
    {
      if |updates| == 0 || !hasQueue { return; }
      for i := 0 to |updates|
        invariant Pending() == EnqueueAll(old(Pending()), updates[..i], now)
      {
        var key := KeyOf(updates[i], now + i);
        if key !in pendingUpdates {
          pendingOrder := pendingOrder + [key];
        }
        pendingUpdates := pendingUpdates[key := updates[i]];
        assert updates[..i + 1][..i] == updates[..i];
      }
      assert updates[..|updates|] == updates;
    }

    method DispatchRuntimeAuthUpdate(update: Update, now: int) returns (queued: bool)
      modifies this
      ensures hasQueue == old(hasQueue) == queued
      ensures currentAuths == Announced(old(currentAuths), update) && runtimeAuths == Announced(old(runtimeAuths), update)
      ensures Pending() == if hasQueue then Enqueue(old(Pending()), update, now) else old(Pending())
    {
      if !update.action.Delete? {
        if update.auth.Some? && update.auth.value.id != "" {
          var clone := update.auth.value;
          runtimeAuths := runtimeAuths[clone.id := clone];
          currentAuths := currentAuths[clone.id := clone];
        }
      } else {
        var id := update.id;
        if id == "" && update.auth.Some? {
          id := update.auth.value.id;
        }
        if id != "" {
          runtimeAuths := runtimeAuths - {id};
          currentAuths := currentAuths - {id};
        }
      }
      if !hasQueue { return false; }
      EnqueueOnly(Pending(), update, now);
      DispatchAuthUpdates([update], now);
      return true;
    }

    method RefreshAuthState(snapshot: seq<Option<Snapshot>>, force: bool, now: int) returns (ghost updates: seq<Update>)
      requires ByTheirIDs(runtimeAuths) && ByTheirIDs(currentAuths)
      modifies this
      ensures hasQueue == old(hasQueue) && runtimeAuths == old(runtimeAuths)
      ensures currentAuths == Listed(snapshot) + runtimeAuths
      ensures hasQueue ==> IsDiff(updates, old(currentAuths), currentAuths, force)
      ensures Pending() == if hasQueue then EnqueueAll(old(Pending()), updates, now) else old(Pending())
    {
      var auths := WithRuntimeAuths(snapshot);
      var prepared := PrepareAuthUpdates(auths, force);
      updates := prepared;
      DispatchAuthUpdates(prepared, now);
    }

    method WithRuntimeAuths(snapshot: seq<Option<Snapshot>>) returns (auths: seq<Option<Snapshot>>)
      requires ByTheirIDs(runtimeAuths)
      ensures Listed(auths) == Listed(snapshot) + runtimeAuths
    {
      auths := snapshot;
      var todo := runtimeAuths.Keys;
      while todo != {}
        invariant todo <= runtimeAuths.Keys
        invariant Listed(auths) == Listed(snapshot) + (map id | id in runtimeAuths && id !in todo :: runtimeAuths[id])
      {
        ghost var some := Witness(todo);
        var id :| id in todo;
        auths := auths + [Some(runtimeAuths[id])];
        assert auths[..|auths| - 1] + [Some(runtimeAuths[id])] == auths;
        todo := todo - {id};
      }
      assert (map id | id in runtimeAuths && id !in {} :: runtimeAuths[id]) == runtimeAuths;
    }

    method PrepareAuthUpdates(auths: seq<Option<Snapshot>>, force: bool) returns (updates: seq<Update>)
      requires ByTheirIDs(currentAuths)
      modifies `currentAuths
      ensures currentAuths == Listed(auths)
      ensures if hasQueue then IsDiff(updates, old(currentAuths), currentAuths, force) else updates == []
    {
      var newState := CollectByID(auths);
      updates := [];
      if hasQueue {
        updates := Differences(currentAuths, newState, force);
      }
      currentAuths := newState;
    }

    static method CollectByID(auths: seq<Option<Snapshot>>) returns (newState: Auths)
      ensures newState == Listed(auths)
    {
      newState := map[];
      for i := 0 to |auths|
        invariant newState == Listed(auths[..i])
      {
        assert auths[..i + 1][..i] == auths[..i];
        if auths[i].Some? && auths[i].value.id != "" {
          newState := newState[auths[i].value.id := auths[i].value];
        }
      }
      assert auths[..|auths|] == auths;
    }

    static method Differences(current: Auths, next: Auths, force: bool) returns (updates: seq<Update>)
      ensures IsDiff(updates, current, next, force)
    {
      hide DiffSoFar, IsDiff, AuthEqual;
      updates := [];
      NoDiffYet(current, next, force);
      var todo := next.Keys;
      while todo != {}
        invariant todo <= next.Keys && DiffSoFar(updates, current, next, force, next.Keys - todo)
      {
        ghost var some := Witness(todo);
        var id :| id in todo;
        ghost var before, done := updates, next.Keys - todo;
        if id !in current {
          updates := updates + [Update(Add, id, Some(next[id]))];
        } else if force || !AuthEqual(current[id], next[id]) {
          updates := updates + [Update(Modify, id, Some(next[id]))];
        }
        OneMoreDiff(before, current, next, force, done, id, updates);
        todo := todo - {id};
        assert next.Keys - todo == done + {id};
      }
      var gone := current.Keys;
      assert next.Keys - todo == next.Keys + (current.Keys - gone);
      while gone != {}
        invariant gone <= current.Keys && DiffSoFar(updates, current, next, force, next.Keys + (current.Keys - gone))
      {
        ghost var some := Witness(gone);
        var id :| id in gone;
        ghost var before, done := updates, next.Keys + (current.Keys - gone);
        if id !in next {
          updates := updates + [Update(Delete, id, None)];
          OneMoreDiff(before, current, next, force, done, id, updates);
        }
        gone := gone - {id};
        assert next.Keys + (current.Keys - gone) == done + {id};
        assert id in next ==> done + {id} == done;
      }
      AllDiffs(updates, current, next, force);
    }

    method NextPendingBatch() returns (batch: seq<Update>)
      requires pendingOrder != [] && QueueTrue(Pending())
      modifies `pendingUpdates, `pendingOrder
      ensures batch == Drained(old(Pending())) && Pending() == NO_QUEUE
    {
      hide Drained, Filed;
      batch := [];
      var order := pendingOrder;
      while order != []
        invariant QueueTrue(Queue(order, pendingUpdates))
        invariant batch + Drained(Queue(order, pendingUpdates)) == Drained(old(Pending()))
      {
        var key := order[0];
        DrainedFirst(Queue(order, pendingUpdates));
        RestTrue(Queue(order, pendingUpdates));
        batch := batch + [pendingUpdates[key]];
        pendingUpdates := pendingUpdates - {key};
        order := order[1..];
      }
      NothingQueued(Queue(order, pendingUpdates));
      pendingOrder := [];
    }
  }

  lemma DrainedFirst(q: Queue)
    requires QueueTrue(q) && q.order != []
    ensures var rest := Queue(q.order[1..], q.updates - {q.order[0]});
            && q.order[0] in q.updates && QueueTrue(rest)
            && Drained(q) == [q.updates[q.order[0]]] + Drained(rest)
  {
    RestTrue(q);
  }

  lemma NothingQueued(q: Queue)
    requires QueueTrue(q) && q.order == []
    ensures q.updates == map[] && Drained(q) == []
  {
    assert forall key :: key !in q.updates;
  }

  lemma EnqueueOnly(q: Queue, u: Update, now: int)
    ensures EnqueueAll(q, [u], now) == Enqueue(q, u, now)
  {
    assert [u][..0] == [];
    assert EnqueueAll(q, [], now) == q;
  }

  /** The differences at the IDs in `done` and no others. */
  ghost predicate DiffSoFar(updates: seq<Update>, current: Auths, next: Auths, force: bool, done: set<string>) {
    && (forall i, j :: 0 <= i < j < |updates| ==> updates[i].id != updates[j].id)
    && (forall u :: u in updates ==> u.id in done && DiffAt(current, next, force, u.id) == Some(u))
    && forall id :: id in done && DiffAt(current, next, force, id).Some? ==> DiffAt(current, next, force, id).value in updates
  }

  lemma NoDiffYet(current: Auths, next: Auths, force: bool)
    ensures DiffSoFar([], current, next, force, next.Keys - next.Keys)
  {
  }

  lemma OneMoreDiff(updates: seq<Update>, current: Auths, next: Auths, force: bool, done: set<string>, id: string, updates': seq<Update>)
    requires DiffSoFar(updates, current, next, force, done) && id !in done
    requires var d := DiffAt(current, next, force, id);
             updates' == if d.Some? then updates + [d.value] else updates
    ensures DiffSoFar(updates', current, next, force, done + {id})
  {
  }

  lemma AllDiffs(updates: seq<Update>, current: Auths, next: Auths, force: bool)
    requires DiffSoFar(updates, current, next, force, next.Keys + (current.Keys - {}))
    ensures IsDiff(updates, current, next, force)
  {
  }

  class Service {
    var auths: Auths

    constructor ()
      ensures auths == map[]
    {
      auths := map[];
    }

    method HandleAuthUpdate(u: Update)
      modifies this
      ensures auths == Apply(old(auths), u)
    {
      if !u.action.Delete? {
        if u.auth.None? || u.auth.value.id == "" { return; }
        ApplyCoreAuthAddOrUpdate(u.auth.value);
      } else {
        var id := u.id;
        if id == "" && u.auth.Some? {
          id := u.auth.value.id;
        }
        if id == "" { return; }
        auths := auths - {id};
      }
    }

    method ApplyCoreAuthAddOrUpdate(update: Snapshot)
      requires update.id != ""
      modifies this
      ensures auths == old(auths)[update.id := Merge(Find(old(auths), update.id), update)]
    {
      var auth := update;
      if auth.id in auths {
        var existing := auths[auth.id];
        auth := auth.(stamps := auth.stamps.(createdAt := existing.stamps.createdAt,
                                             lastRefreshedAt := existing.stamps.lastRefreshedAt,
                                             nextRefreshAfter := existing.stamps.nextRefreshAfter));
        if |auth.states| == 0 && |existing.states| > 0 {
          auth := auth.(states := existing.states);
        }
      }
      auths := auths[auth.id := auth];
    }
  }

  // ----- sessions

  datatype Event =
    | Refresh(snapshot: seq<Option<Snapshot>>, force: bool)
    | Runtime(update: Update)
    | TakeBatch
    | DeliverOne

  /** The event brings no model states. */
  predicate BringsNone(e: Event) {
    match e
    case Refresh(snapshot, _) => forall a :: a in snapshot && a.Some? ==> |a.value.states| == 0
    case Runtime(update) => !BringsStates(update)
    case _ => true
  }

  /** Whether the consumer's copies are the watcher's snapshots: where these have model
      states, or where the applied updates have left none. */
  ghost predicate EqualWhere(copies: Auths, current: Auths, applied: seq<Update>) {
    && copies.Keys == current.Keys
    && forall id :: id in copies ==>
         (AuthEqual(copies[id], current[id]) <==> |current[id].states| > 0 || StatesAfter(applied, id, map[]) == map[])
  }

  /** Any interleaving of refreshes, safe runtime updates, batches taken and updates
      applied keeps the consumer converging; with nothing under way and nothing pending it
      has arrived: it has the watcher's credentials, each as the watcher knows it but for
      the model states that EqualWhere says, so that events without model states leave no
      difference at all. */
  method Session(w: Watcher, s: Service, events: seq<Event>, clock: int) returns (inFlight: seq<Update>, ghost applied: seq<Update>)
    requires w.hasQueue && w.currentAuths == map[] && w.runtimeAuths == map[] && w.Pending() == NO_QUEUE && s.auths == map[]
    requires forall e :: e in events && e.Runtime? ==> Safe(e.update)
    modifies w, s
    ensures Converging(System(w.currentAuths, w.runtimeAuths, w.Pending(), inFlight, s.auths))
    ensures RuntimeKept(System(w.currentAuths, w.runtimeAuths, w.Pending(), inFlight, s.auths))
    ensures s.auths == ApplyAll(map[], applied) && forall u :: u in applied ==> Safe(u)
    ensures inFlight == [] && w.pendingOrder == [] ==>
              && (forall id :: Follows(Find(s.auths, id), Find(w.currentAuths, id)))
              && EqualWhere(s.auths, w.currentAuths, applied)
    ensures inFlight == [] && w.pendingOrder == [] && (forall e :: e in events ==> BringsNone(e)) ==>
              s.auths.Keys == w.currentAuths.Keys && forall id :: id in s.auths ==> AuthEqual(s.auths[id], w.currentAuths[id])
  {
    hide Follows, Converging, RuntimeKept, StateFree, EqualWhere, BringsNone, ApplyAll, StatesAfter;
    inFlight, applied := [], [];
    ghost var free := forall e :: e in events ==> BringsNone(e);
    StartsConverged();
    for i := 0 to |events|
      invariant w.hasQueue
      invariant Converging(System(w.currentAuths, w.runtimeAuths, w.Pending(), inFlight, s.auths))
      invariant RuntimeKept(System(w.currentAuths, w.runtimeAuths, w.Pending(), inFlight, s.auths))
      invariant free ==> StateFree(System(w.currentAuths, w.runtimeAuths, w.Pending(), inFlight, s.auths))
      invariant free ==> forall u :: u in applied ==> !BringsStates(u)
      invariant s.auths == ApplyAll(map[], applied) && forall u :: u in applied + inFlight ==> Safe(u)
    {
      assert events[i] in events;
      inFlight, applied := Perform(w, s, events[i], clock + i, inFlight, applied);
    }
    if inFlight == [] && w.pendingOrder == [] {
      Arrived(System(w.currentAuths, w.runtimeAuths, w.Pending(), inFlight, s.auths), applied);
      if free {
        ArrivedEqual(s.auths, w.currentAuths, applied);
      }
    }
  }

  lemma StartsConverged()
    ensures Converging(START) && RuntimeKept(START) && StateFree(START) && ApplyAll(map[], []) == map[]
  {
  }

  lemma Arrived(s: System, applied: seq<Update>)
    requires Converging(s) && RuntimeKept(s) && s.inFlight == [] && s.queue.order == []
    requires s.consumer == ApplyAll(map[], applied) && forall u :: u in applied ==> Safe(u)
    ensures forall id :: Follows(Find(s.consumer, id), Find(s.current, id))
    ensures EqualWhere(s.consumer, s.current, applied)
  {
    ConvergingMeans(s);
    assert s.inFlight + Drained(s.queue) == [];
    assert forall id :: Follows(Find(s.consumer, id), Find(s.current, id));
    forall id ensures id in s.consumer <==> id in s.current {
      assert Follows(Find(s.consumer, id), Find(s.current, id));
    }
    hide ApplyAll, StatesAfter, Follows;
    forall id | id in s.consumer
      ensures AuthEqual(s.consumer[id], s.current[id]) <==> |s.current[id].states| > 0 || StatesAfter(applied, id, map[]) == map[] {
      EqualExactly(applied, id, Find(s.current, id));
    }
  }

  lemma ArrivedEqual(copies: Auths, current: Auths, applied: seq<Update>)
    requires EqualWhere(copies, current, applied) && forall u :: u in applied ==> !BringsStates(u)
    ensures copies.Keys == current.Keys && forall id :: id in copies ==> AuthEqual(copies[id], current[id])
  {
    forall id | id in copies ensures AuthEqual(copies[id], current[id]) {
      NoStatesLeft(applied, id);
    }
  }

  method Perform(w: Watcher, s: Service, e: Event, now: int, before: seq<Update>, ghost appliedBefore: seq<Update>)
    returns (inFlight: seq<Update>, ghost applied: seq<Update>)
    requires w.hasQueue && (e.Runtime? ==> Safe(e.update))
    requires Converging(System(w.currentAuths, w.runtimeAuths, w.Pending(), before, s.auths))
    requires RuntimeKept(System(w.currentAuths, w.runtimeAuths, w.Pending(), before, s.auths))
    requires s.auths == ApplyAll(map[], appliedBefore) && forall u :: u in appliedBefore + before ==> Safe(u)
    modifies w, s
    ensures w.hasQueue
    ensures Converging(System(w.currentAuths, w.runtimeAuths, w.Pending(), inFlight, s.auths))
    ensures RuntimeKept(System(w.currentAuths, w.runtimeAuths, w.Pending(), inFlight, s.auths))
    ensures s.auths == ApplyAll(map[], applied) && forall u :: u in applied + inFlight ==> Safe(u)
    ensures BringsNone(e) && old(StateFree(System(w.currentAuths, w.runtimeAuths, w.Pending(), before, s.auths)))
              && (forall u :: u in appliedBefore ==> !BringsStates(u)) ==>
            && StateFree(System(w.currentAuths, w.runtimeAuths, w.Pending(), inFlight, s.auths))
            && forall u :: u in applied ==> !BringsStates(u)
  {
    hide Follows, QueueTrue, ApplyAll, EnqueueAll, IsDiff, Listed, Drained, Apply, Announced, QueueEffect, Safe, BringsStates;
    inFlight, applied := before, appliedBefore;
    ghost var was := System(w.currentAuths, w.runtimeAuths, w.Pending(), before, s.auths);
    ghost var free := BringsNone(e) && StateFree(was);
    match e
    case Refresh(snapshot, force) =>
      ghost var updates := w.RefreshAuthState(snapshot, force, now);
      RefreshConverges(was, snapshot, force, updates, now);
      if free { RefreshedStateFree(was, snapshot, force, updates, now); }
    case Runtime(update) =>
      ToldConverges(was, update, now);
      ToldKeepsRuntime(was, update, now);
      if free { ToldStateFree(was, update, now); }
      var queued := w.DispatchRuntimeAuthUpdate(update, now);
    case TakeBatch =>
      if w.pendingOrder != [] {
        Take(was);
        DrainedIsSafe(was.queue);
        if free { TakenStateFree(was); }
        var batch := w.NextPendingBatch();
        inFlight := before + batch;
      }
    case DeliverOne =>
      if before != [] {
        Deliver(was);
        AppliedOne(appliedBefore, before[0]);
        s.HandleAuthUpdate(before[0]);
        inFlight, applied := before[1..], appliedBefore + [before[0]];
        assert appliedBefore + [before[0]] + before[1..] == appliedBefore + before;
      }
  }

  lemma AppliedOne(applied: seq<Update>, u: Update)
    ensures ApplyAll(map[], applied + [u]) == Apply(ApplyAll(map[], applied), u)
  {
    ApplyLast(map[], applied + [u]);
    assert (applied + [u])[..|applied|] == applied;
  }
}
