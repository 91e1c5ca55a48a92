/** One provider's auths and its lazily built model shards
    (sdk/cockpit/auth/scheduler_shards.go). */
module Providers {
  import opened Credentials
  import opened ShardIndex
  import opened ShardCursors
  import opened Shards
  import opened Gathering

  /** `shard` holds the auths that support `model`. */
  ghost predicate Synced(shard: ModelScheduler, model: ModelName, auths: Known, clock: Time)
    reads shard, shard.Repr
  {
    && shard.modelKey == model == Canonical(model)
    && shard.Valid(clock)
    && Metas(shard.entries) == Supporting(auths, model)
  }

  lemma KeyOf(shard: ModelScheduler, model: ModelName, auths: Known, clock: Time)
    requires Synced(shard, model, auths, clock)
    ensures shard.modelKey == model
  {
  }

  /** The auths after one of them is replaced, or taken out. */
  function Updated(auths: Known, id: string, meta: Option<Meta>): Known {
    if meta.Some? then auths[id := meta.value] else auths - {id}
  }

  /** Upsert or remove one auth in one shard, by what it supports now. */
  method SyncShard(shard: ModelScheduler, model: ModelName, ghost auths: Known, id: string, meta: Option<Meta>, now: Time,
                   ghost clock: Time)
    requires Synced(shard, model, auths, clock) && (meta.Some? ==> meta.value.auth.id == id && now == clock)
    modifies shard.Repr
    ensures Synced(shard, model, Updated(auths, id, meta), clock)
    ensures shard in shard.Repr && fresh(shard.Repr - old(shard.Repr))
  {
    ghost var before := shard.entries;
    if meta.None? || !Supports(meta.value, model) {
      shard.RemoveEntry(id, clock);
      RemovalKeepsStep(before, auths, model, id, meta);
    } else {
      shard.UpsertEntry(meta.value, now);
      UpsertKeepsStep(before, auths, model, meta.value, shard.entries[id]);
    }
  }

  lemma CanonicalTwice(model: ModelName)
    ensures Canonical(Canonical(model)) == Canonical(model)
  {
  }

  class ProviderScheduler {
    const providerKey: string
    var auths: map<string, Meta>
    var modelShards: map<ModelName, ModelScheduler>
    ghost var Repr: set<object>

    /** The shards are objects of this provider, each with objects of its own. */
    ghost predicate Owning()
      reads this, Repr
    {
      && this in Repr
      && (forall k :: k in modelShards ==>
            modelShards[k] in Repr && modelShards[k] in modelShards[k].Repr && modelShards[k].Repr <= Repr && this !in modelShards[k].Repr)
      && (forall j, k :: j in modelShards && k in modelShards && j != k ==> modelShards[j].Repr !! modelShards[k].Repr)
    }

    ghost predicate Valid(clock: Time)
      reads this, Repr
      ensures Valid(clock) ==> this in Repr
    {
      && Owning()
      && (forall id :: id in auths ==> auths[id].auth.id == id)
      && (forall k :: k in modelShards ==> Synced(modelShards[k], k, auths, clock))
    }

    /** What the shard of `model` shows once it is looked up at `now`: its expired entries
        are promoted, and one that is not built yet holds the verdicts of now. */
    ghost function Prepared(model: ModelName, now: Time): ShardState
      reads this, Repr
    {
      if model in modelShards && modelShards[model] in Repr && modelShards[model].Repr <= Repr then
        ShardState(PromoteAll(modelShards[model].entries, model, now), modelShards[model].CursorsAt(now))
      else
        ShardState(Evaluations(auths, model, now), AtStart(Evaluations(auths, model, now)))
    }

    constructor (providerKey: string)
      ensures Valid(0) && fresh(Repr)
      ensures this.providerKey == providerKey && auths == map[] && modelShards == map[]
    {
      this.providerKey := providerKey;
      auths, modelShards := map[], map[];
      Repr := {this};
    }

    lemma Later(t: Time, u: Time)
      requires Valid(t) && t <= u
      ensures Valid(u)
    {
      forall k | k in modelShards ensures Synced(modelShards[k], k, auths, u) {
        modelShards[k].Later(t, u);
      }
    }

    method SyncAt(model: ModelName, ghost before: Known, id: string, meta: Option<Meta>, now: Time, ghost clock: Time)
      requires Owning() && model in modelShards && Synced(modelShards[model], model, before, clock)
      requires meta.Some? ==> meta.value.auth.id == id && now == clock
      modifies modelShards[model].Repr, this`Repr
      ensures Owning() && fresh(Repr - old(Repr))
      ensures Synced(modelShards[model], model, Updated(before, id, meta), clock)
    {
      hide Synced;
      SyncShard(modelShards[model], model, before, id, meta, now, clock);
      Repr := Repr + modelShards[model].Repr;
    }

    /** Bring every shard in step with one replaced or removed auth. */
    method SyncAll(ghost before: Known, id: string, meta: Option<Meta>, now: Time, ghost clock: Time)
      requires Owning() && forall k :: k in modelShards ==> Synced(modelShards[k], k, before, clock)
      requires meta.Some? ==> meta.value.auth.id == id && now == clock
      modifies Repr
      ensures Owning() && fresh(Repr - old(Repr)) && auths == old(auths) && modelShards == old(modelShards)
      ensures forall k :: k in modelShards ==> Synced(modelShards[k], k, Updated(before, id, meta), clock)
    {
      hide Synced, Updated;
      ghost var after := Updated(before, id, meta);
      var todo := modelShards.Keys;
      while todo != {}
        invariant Owning() && fresh(Repr - old(Repr))
        invariant auths == old(auths) && modelShards == old(modelShards)
        invariant todo <= modelShards.Keys
        invariant forall k :: k in todo ==> Synced(modelShards[k], k, before, clock)
        invariant forall k :: k in modelShards && k !in todo ==> Synced(modelShards[k], k, after, clock)
      {
        var model :| model in todo;
        SyncAt(model, before, id, meta, now, clock);
        todo := todo - {model};
      }
    }

    /** upsertAuthLocked. */
    method UpsertAuth(meta: Meta, now: Time)
      requires Valid(now)
      modifies Repr
      ensures Valid(now) && fresh(Repr - old(Repr))
      ensures auths == old(auths)[meta.auth.id := meta] && modelShards == old(modelShards)
    {
      ghost var before := auths;
      auths := auths[meta.auth.id := meta];
      SyncAll(before, meta.auth.id, Some(meta), now, now);
    }

    /** removeAuthLocked. */
    method RemoveAuth(id: string, ghost clock: Time)
      requires Valid(clock)
      modifies Repr
      ensures Valid(clock) && fresh(Repr - old(Repr))
      ensures auths == old(auths) - {id} && modelShards == old(modelShards)
    {
      ghost var before := auths;
      auths := auths - {id};
      SyncAll(before, id, None, 0, clock);
    }

    method EnterShard(model: ModelName, shard: ModelScheduler, now: Time)
      requires Valid(now) && model !in modelShards
      requires Synced(shard, model, auths, now) && shard in shard.Repr && shard.Repr !! Repr
      modifies this`modelShards, this`Repr
      ensures Valid(now) && Repr == old(Repr) + shard.Repr && modelShards == old(modelShards)[model := shard]
    {
      hide Synced;
      modelShards := modelShards[model := shard];
      Repr := Repr + shard.Repr;
    }

    method PromoteAt(model: ModelName, now: Time)
      requires Valid(now) && model in modelShards
      modifies modelShards[model].Repr, this`Repr
      ensures Valid(now) && fresh(Repr - old(Repr)) && auths == old(auths) && model in modelShards
      ensures UpToDate(modelShards[model].entries, model, now)
      ensures ShardState(modelShards[model].entries, modelShards[model].Cursors()) == old(Prepared(model, now))
    {
      hide Synced, UpToDate, PromoteAll, ModelScheduler.CursorsAt, ModelScheduler.Cursors, AtStart, Evaluations;
      KeyOf(modelShards[model], model, auths, now);
      PromoteShard(modelShards[model], model, auths, now);
      Repr := Repr + modelShards[model].Repr;
    }

    /** ensureModelLocked: the shard of a model, built on first use, with no held-back
        entry past its retry time; one just built holds the verdicts of this instant. */
    method EnsureModel(requested: ModelName, now: Time) returns (ghost view: Entries)
      requires Valid(now)
      modifies Repr
      ensures Shows(Canonical(requested), now, view) && fresh(Repr - old(Repr)) && auths == old(auths)
      ensures Prepared(Canonical(requested), now) == old(Prepared(Canonical(requested), now))
      ensures view == Prepared(Canonical(requested), now).entries
      ensures old(Canonical(requested) !in modelShards) ==> Current(view, Canonical(requested), now)
    {
      hide Synced, UpToDate, Canonical, Current, PromoteAll;
      var modelKey := Canonical(requested);
      if modelKey in modelShards {
        PromoteAt(modelKey, now);
      } else {
        CanonicalTwice(requested);
        var shard := BuildShard(modelKey, now);
        EnterShard(modelKey, shard, now);
      }
      view := modelShards[modelKey].entries;
      ShownAsItStands(modelKey, now, view);
    }

    /** A shard that is up to date is found as it stands. */
    lemma ShownAsItStands(model: ModelName, now: Time, view: Entries)
      requires Shows(model, now, view)
      ensures Prepared(model, now) == ShardState(view, modelShards[model].Cursors())
    {
      StillPromoted(view, model, now);
    }

    method BuildShard(modelKey: ModelName, now: Time) returns (shard: ModelScheduler)
      requires Valid(now) && Canonical(modelKey) == modelKey
      ensures fresh(shard.Repr) && shard in shard.Repr
      ensures Synced(shard, modelKey, auths, now) && UpToDate(shard.entries, modelKey, now)
      ensures Current(shard.entries, modelKey, now)
      ensures shard.entries == Evaluations(auths, modelKey, now) && shard.Cursors() == AtStart(shard.entries)
    {
      hide Evaluations, Evaluate, AtStart, SamePlace, Supports, Metas, Supporting, UpToDate, Current, IsIndexOf, Faithful;
      shard := new ModelScheduler(modelKey);
      var todo := auths.Keys;
      shard.Later(0, now);
      NothingEvaluated(auths, modelKey, now);
      while todo != {}
        invariant todo <= auths.Keys
        invariant fresh(shard.Repr) && shard.Valid(now) && shard.modelKey == modelKey
        invariant shard.entries == Evaluations(auths - todo, modelKey, now) && shard.Cursors() == AtStart(shard.entries)
      {
        var id :| id in todo;
        var meta := auths[id];
        EvaluationStep(auths, todo, id, modelKey, now);
        todo := todo - {id};
        if !Supports(meta, modelKey) {
          continue;
        }
        shard.UpsertEntry(meta, now);
      }
      assert auths - todo == auths;
      EvaluationsAreCurrent(auths, modelKey, now);
    }

    // ----- lookups on the shard of a model

    /** The shard of `model` is built, promoted up to `now`, and holds `view`. */
    ghost predicate Shows(model: ModelName, now: Time, view: Entries)
      reads this, Repr
    {
      && Valid(now) && model in modelShards
      && modelShards[model].entries == view
      && UpToDate(view, model, now)
    }

    method HighestReady(model: ModelName, preferWebsocket: bool, allowed: string -> bool, now: Time, ghost view: Entries)
      returns (best: Option<int>)
      requires Shows(model, now, view)
      ensures IsHighestReady(view, preferWebsocket, allowed, best)
    {
      best := modelShards[model].HighestReadyPriority(preferWebsocket, allowed);
    }

    method PickAt(model: ModelName, preferWebsocket: bool, priority: int, strategy: Strategy, allowed: string -> bool,
                  ghost now: Time, ghost view: Entries)
      returns (picked: Option<Auth>)
      requires Shows(model, now, view)
      modifies Repr
      ensures Shows(model, now, view) && Repr == old(Repr) && auths == old(auths)
      ensures IsPick(view, priority, preferWebsocket, strategy, allowed, picked)
      ensures Prepared(model, now).entries == view
      ensures Rotates(view, priority, preferWebsocket, strategy, allowed, old(Prepared(model, now)).cursors, Prepared(model, now).cursors, picked)
    {
      hide IsPick, Synced, UpToDate, Rotates;
      ShownAsItStands(model, now, view);
      var shard := modelShards[model];
      picked := PickInShard(shard, model, auths, preferWebsocket, priority, strategy, allowed, now);
      ShownAsItStands(model, now, view);
    }

    method PickReadyAt(model: ModelName, preferWebsocket: bool, strategy: Strategy, allowed: string -> bool, now: Time,
                       ghost view: Entries)
      returns (picked: Option<Auth>)
      requires Shows(model, now, view)
      modifies Repr
      ensures Shows(model, now, view) && fresh(Repr - old(Repr)) && auths == old(auths)
      ensures IsReadyPick(view, preferWebsocket, strategy, allowed, picked)
      ensures Prepared(model, now).entries == view
      ensures RotatesReady(view, preferWebsocket, strategy, allowed, old(Prepared(model, now)).cursors, Prepared(model, now).cursors, picked)
    {
      hide IsReadyPick, Synced, UpToDate, RotatesReady;
      ShownAsItStands(model, now, view);
      var shard := modelShards[model];
      picked := PickReadyInShard(shard, model, auths, preferWebsocket, strategy, allowed, now);
      Repr := Repr + shard.Repr;
      ShownAsItStands(model, now, view);
    }

    method Summary(model: ModelName, allowed: string -> bool, now: Time, ghost view: Entries)
      returns (total: nat, cooling: nat, earliest: Time)
      requires Shows(model, now, view)
      ensures total == |Counted(view, allowed)|
      ensures cooling == |CountedCooling(view, allowed)|
      ensures IsEarliest(RetryTimes(view), CountedCooling(view, allowed), earliest)
    {
      total, cooling, earliest := modelShards[model].AvailabilitySummary(allowed);
    }
  }

  method PickInShard(shard: ModelScheduler, model: ModelName, ghost auths: Known, preferWebsocket: bool, priority: int,
                     strategy: Strategy, allowed: string -> bool, ghost now: Time)
    returns (picked: Option<Auth>)
    requires Synced(shard, model, auths, now)
    modifies shard.Repr - {shard}
    ensures Synced(shard, model, auths, now)
    ensures IsPick(shard.entries, priority, preferWebsocket, strategy, allowed, picked)
    ensures Rotates(shard.entries, priority, preferWebsocket, strategy, allowed, old(shard.Cursors()), shard.Cursors(), picked)
  {
    hide IsPick, Rotates;
    picked := shard.PickReadyAtPriority(preferWebsocket, priority, strategy, allowed, now);
  }

  method PickReadyInShard(shard: ModelScheduler, model: ModelName, ghost auths: Known, preferWebsocket: bool,
                          strategy: Strategy, allowed: string -> bool, now: Time)
    returns (picked: Option<Auth>)
    requires Synced(shard, model, auths, now) && UpToDate(shard.entries, model, now)
    modifies shard.Repr
    ensures Synced(shard, model, auths, now) && shard.entries == old(shard.entries)
    ensures shard in shard.Repr && fresh(shard.Repr - old(shard.Repr))
    ensures IsReadyPick(shard.entries, preferWebsocket, strategy, allowed, picked)
    ensures RotatesReady(shard.entries, preferWebsocket, strategy, allowed, old(shard.Cursors()), shard.Cursors(), picked)
  {
    hide IsReadyPick, RotatesReady;
    StillPromoted(shard.entries, model, now);
    picked := shard.PickReady(preferWebsocket, strategy, allowed, now);
  }

  method PromoteShard(shard: ModelScheduler, model: ModelName, ghost auths: Known, now: Time)
    requires Synced(shard, model, auths, now)
    modifies shard.Repr
    ensures Synced(shard, model, auths, now) && UpToDate(shard.entries, model, now)
    ensures shard.entries == PromoteAll(old(shard.entries), model, now) && shard.Cursors() == old(shard.CursorsAt(now))
    ensures shard in shard.Repr && fresh(shard.Repr - old(shard.Repr))
  {
    ghost var es := shard.entries;
    shard.PromoteExpired(now);
    PromotionIsCurrent(es, model, now);
  }

  lemma StillPromoted(es: Entries, model: ModelName, now: Time)
    requires UpToDate(es, model, now)
    ensures PromoteAll(es, model, now) == es
  {
  }

  lemma PromotionIsCurrent(es: Entries, model: ModelName, now: Time)
    requires forall id :: id in es ==> Faithful(es[id], model, now)
    ensures UpToDate(PromoteAll(es, model, now), model, now) && Metas(PromoteAll(es, model, now)) == Metas(es)
  {
  }

  function Evaluations(auths: Known, model: ModelName, now: Time): Entries {
    map id | id in auths && Supports(auths[id], model) :: Evaluate(auths[id], model, now)
  }

  lemma NothingEvaluated(auths: Known, model: ModelName, now: Time)
    ensures Evaluations(auths - auths.Keys, model, now) == map[]
  {
  }

  lemma EvaluationStep(auths: Known, todo: set<string>, id: string, model: ModelName, now: Time)
    requires id in auths && id in todo
    ensures Evaluations(auths - (todo - {id}), model, now)
         == if Supports(auths[id], model) then Evaluations(auths - todo, model, now)[id := Evaluate(auths[id], model, now)]
            else Evaluations(auths - todo, model, now)
    ensures id !in Evaluations(auths - todo, model, now)
  {
  }

  lemma EvaluationsAreCurrent(auths: Known, model: ModelName, now: Time)
    ensures UpToDate(Evaluations(auths, model, now), model, now)
    ensures Metas(Evaluations(auths, model, now)) == Supporting(auths, model)
    ensures Current(Evaluations(auths, model, now), model, now)
  {
  }

  lemma RemovalKeepsStep(es: Entries, auths: Known, model: ModelName, id: string, meta: Option<Meta>)
    requires Metas(es) == Supporting(auths, model) && (meta.Some? ==> !Supports(meta.value, model))
    ensures Metas(es - {id}) == Supporting(Updated(auths, id, meta), model)
  {
    assert forall x :: x in es <==> x in Metas(es);
    assert forall x :: x in es ==> Metas(es)[x] == es[x].meta;
  }

  lemma UpsertKeepsStep(es: Entries, auths: Known, model: ModelName, meta: Meta, e: Entry)
    requires Metas(es) == Supporting(auths, model) && Supports(meta, model) && e.meta == meta
    ensures Metas(es[meta.auth.id := e]) == Supporting(auths[meta.auth.id := meta], model)
  {
    assert forall x :: x in es <==> x in Metas(es);
    assert forall x :: x in es ==> Metas(es)[x] == es[x].meta;
  }
}
