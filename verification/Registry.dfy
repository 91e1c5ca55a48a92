/** The model registry (internal/registry): counters, client tables and the cache of
    answers, changed in place. Each locked call is one step at one instant. */
module Registry {
  import opened Credentials
  import opened Ordering
  import opened RegistryState
  import opened RegistryListing
  import opened RegistryAvailability

  datatype CacheEntry = CacheEntry(list: seq<Rendered>, expiresAt: Time)

  /** The usable entries of a registration request: absent models and empty IDs are skipped. */
  function Usable(listed: seq<Option<ModelInfo>>): seq<ModelInfo> {
    if listed == [] then []
    else
      var before := Usable(listed[..|listed| - 1]);
      match listed[|listed| - 1]
      case None => before
      case Some(info) => if info.id == "" then before else before + [info]
  }

  function IdsOf(usable: seq<ModelInfo>): seq<string> {
    seq(|usable|, i requires 0 <= i < |usable| => usable[i].id)
  }

  /** For each listed ID the info listed with it first. */
  ghost predicate FirstInfos(usable: seq<ModelInfo>, infos: map<string, ModelInfo>) {
    && (forall id :: id in infos <==> id in IdsOf(usable))
    && forall id :: id in infos ==>
         exists i :: 0 <= i < |usable| && usable[i] == infos[id] && usable[i].id == id && forall j :: 0 <= j < i ==> usable[j].id != id
  }

  lemma FirstInfosUnique(usable: seq<ModelInfo>, infos: map<string, ModelInfo>, others: map<string, ModelInfo>)
    requires FirstInfos(usable, infos) && FirstInfos(usable, others)
    ensures infos == others
  {
    forall id | id in infos ensures id in others && infos[id] == others[id] {
      var i :| 0 <= i < |usable| && usable[i] == infos[id] && usable[i].id == id && forall j :: 0 <= j < i ==> usable[j].id != id;
      assert id in others;
      var k :| 0 <= k < |usable| && usable[k] == others[id] && usable[k].id == id && forall j :: 0 <= j < k ==> usable[j].id != id;
      assert i == k;
    }
    assert infos.Keys == others.Keys;
  }

  /** What RegisterClient's first loop has gathered from the entries visited. */
  ghost predicate Gathered(listed: seq<Option<ModelInfo>>, ids: seq<string>, counts: map<string, nat>, infos: map<string, ModelInfo>) {
    ids == IdsOf(Usable(listed)) && counts == CountsOf(ids) && FirstInfos(Usable(listed), infos)
  }

  lemma NothingGathered()
    ensures Gathered([], [], map[], map[])
  {
  }

  lemma OneMoreSkipped(listed: seq<Option<ModelInfo>>, ids: seq<string>, counts: map<string, nat>, infos: map<string, ModelInfo>,
                       entry: Option<ModelInfo>)
    requires Gathered(listed, ids, counts, infos) && (entry.None? || entry.value.id == "")
    ensures Gathered(listed + [entry], ids, counts, infos)
  {
    assert (listed + [entry])[..|listed|] == listed;
  }

  lemma OneMoreGathered(listed: seq<Option<ModelInfo>>, ids: seq<string>, counts: map<string, nat>, infos: map<string, ModelInfo>,
                        info: ModelInfo)
    requires Gathered(listed, ids, counts, infos) && info.id != ""
    ensures Gathered(listed + [Some(info)], ids + [info.id], counts[info.id := Times(counts, info.id) + 1],
                     if info.id in infos then infos else infos[info.id := info])
  {
    hide IdsOf, CountsOf, FirstInfos;
    assert (listed + [Some(info)])[..|listed|] == listed;
    assert Usable(listed + [Some(info)]) == Usable(listed) + [info];
    CountOneMore(ids, info.id);
    FirstOfOneMore(Usable(listed), infos, info);
  }

  method Collect(listed: seq<Option<ModelInfo>>) returns (ids: seq<string>, counts: map<string, nat>, infos: map<string, ModelInfo>)
    ensures Gathered(listed, ids, counts, infos)
  {
    hide Gathered;
    ids, counts, infos := [], map[], map[];
    NothingGathered();
    for n := 0 to |listed|
      invariant Gathered(listed[..n], ids, counts, infos)
    {
      assert listed[..n + 1] == listed[..n] + [listed[n]];
      if listed[n].None? || listed[n].value.id == "" {
        OneMoreSkipped(listed[..n], ids, counts, infos, listed[n]);
      } else {
        var info := listed[n].value;
        OneMoreGathered(listed[..n], ids, counts, infos, info);
        ids := ids + [info.id];
        counts := counts[info.id := Times(counts, info.id) + 1];
        if info.id !in infos {
          infos := infos[info.id := info];
        }
      }
    }
    assert listed[..|listed|] == listed;
  }

  lemma CountOneMore(ids: seq<string>, id: string)
    ensures CountsOf(ids + [id]) == CountsOf(ids)[id := Times(CountsOf(ids), id) + 1]
  {
    CountsAreMultiplicities(ids, id);
  }

  lemma FirstOfOneMore(usable: seq<ModelInfo>, infos: map<string, ModelInfo>, info: ModelInfo)
    requires FirstInfos(usable, infos)
    ensures FirstInfos(usable + [info], if info.id in infos then infos else infos[info.id := info])
    ensures IdsOf(usable + [info]) == IdsOf(usable) + [info.id]
  {
    var more, also := usable + [info], if info.id in infos then infos else infos[info.id := info];
    assert IdsOf(more) == IdsOf(usable) + [info.id];
    forall id | id in also
      ensures exists i :: 0 <= i < |more| && more[i] == also[id] && more[i].id == id && forall j :: 0 <= j < i ==> more[j].id != id {
      if id in infos {
        var i :| 0 <= i < |usable| && usable[i] == infos[id] && usable[i].id == id && forall j :: 0 <= j < i ==> usable[j].id != id;
        assert more[i] == also[id];
      } else {
        assert id !in IdsOf(usable);
        forall j | 0 <= j < |usable| ensures more[j].id != id {
          assert IdsOf(usable)[j] == usable[j].id;
        }
        assert more[|usable|] == also[id];
      }
    }
  }

  /** The cache entries answer what was asked when they were built, and expire with the
      first quota recovery after that. */
  ghost predicate CacheTrue(cache: map<string, CacheEntry>, builtAt: map<string, Time>, models: Models) {
    && cache.Keys == builtAt.Keys
    && forall handler :: handler in cache ==>
         && Answer(cache[handler].list, handler, models, builtAt[handler])
         && IsFirstRecovery(models, cache[handler].expiresAt, builtAt[handler])
  }

  lemma CacheKeys(cache: map<string, CacheEntry>, builtAt: map<string, Time>, models: Models)
    requires CacheTrue(cache, builtAt, models)
    ensures cache.Keys == builtAt.Keys
  {
  }

  lemma CachedAnswer(cache: map<string, CacheEntry>, builtAt: map<string, Time>, models: Models, handler: string, now: Time)
    requires CacheTrue(cache, builtAt, models) && handler in cache && handler in builtAt
    requires cache[handler].expiresAt == 0 || now < cache[handler].expiresAt
    ensures Answer(cache[handler].list, handler, models, if builtAt[handler] <= now then now else builtAt[handler])
  {
    hide Answer;
    if builtAt[handler] <= now {
      AnswerHolds(cache[handler].list, handler, models, cache[handler].expiresAt, builtAt[handler], now);
    }
  }

  lemma CacheMore(cache: map<string, CacheEntry>, builtAt: map<string, Time>, models: Models, handler: string,
                  list: seq<Rendered>, expiresAt: Time, now: Time)
    requires CacheTrue(cache, builtAt, models) && Answer(list, handler, models, now) && IsFirstRecovery(models, expiresAt, now)
    ensures CacheTrue(cache[handler := CacheEntry(list, expiresAt)], builtAt[handler := now], models)
  {
    hide Answer, IsFirstRecovery;
  }

  lemma NothingCached(models: Models)
    ensures CacheTrue(map[], map[], models)
  {
  }

  /** How far a loop over `ids` has come: `todo` is still to be done. */
  ghost predicate Partly(ch: Change, stage: Stage, models: Models, before: Models, todo: set<string>)
    requires ch.newCounts.Keys <= ch.infos.Keys
  {
    forall id :: Lookup(models, id) == if id in todo then Lookup(before, id) else After(ch, stage, id, Lookup(before, id))
  }

  lemma OneDone(ch: Change, stage: Stage, models: Models, before: Models, todo: set<string>, id: string, models': Models)
    requires ch.newCounts.Keys <= ch.infos.Keys && Partly(ch, stage, models, before, todo) && id in todo
    requires models' == Put(models, id, After(ch, stage, id, Lookup(models, id)))
    ensures Partly(ch, stage, models', before, todo - {id})
  {
    hide After;
    forall other ensures Lookup(models', other) ==
        if other in todo - {id} then Lookup(before, other) else After(ch, stage, other, Lookup(before, other)) {
      assert Lookup(models, other) == if other in todo then Lookup(before, other) else After(ch, stage, other, Lookup(before, other));
    }
  }

  lemma PutBack(models: Models, id: string)
    ensures Put(models, id, Lookup(models, id)) == models
  {
  }

  class ModelRegistry {
    var models: Models
    var clientModels: map<string, seq<string>>
    var clientModelInfos: map<string, map<string, ModelInfo>>
    var clientProviders: map<string, string>
    var cache: map<string, CacheEntry>
    ghost var builtAt: map<string, Time>
    ghost var clock: Time        // the latest read

    ghost function View(): State
      reads this
    {
      State(models, clientModels, clientModelInfos, clientProviders)
    }

    ghost predicate Valid()
      reads this
    {
      && WellFormed(View()) && CountersTrue(View()) && CacheTrue(cache, builtAt, models)
      && forall handler :: handler in builtAt ==> builtAt[handler] <= clock
    }

    constructor ()
      ensures Valid() && View() == State(map[], map[], map[], map[]) && cache == map[] && clock == 0
    {
      models, clientModels, clientModelInfos, clientProviders := map[], map[], map[], map[];
      cache, builtAt, clock := map[], map[], 0;
    }

    method Invalidate()
      modifies `cache, `builtAt
      ensures cache == map[] && builtAt == map[]
    {
      builtAt := map[];
      if |cache| == 0 { return; }
      cache := map[];
    }

    // ----- one registration

    method AddModelRegistration(id: string, provider: string, info: ModelInfo)
      modifies `models
      ensures models == Put(old(models), id, AddN(Lookup(old(models), id), provider, info, 1))
    {
      if id in models {
        var reg := models[id];
        reg := reg.(count := reg.count + 1, info := info);
        if provider != "" {
          reg := reg.(providers := reg.providers[provider := (if provider in reg.providers then reg.providers[provider] else 0) + 1],
                      infoByProvider := reg.infoByProvider[provider := info]);
        }
        models := models[id := reg];
        return;
      }
      var reg := Registration(info, map[], 1, map[], map[], map[]);
      if provider != "" {
        reg := reg.(providers := map[provider := 1], infoByProvider := map[provider := info]);
      }
      models := models[id := reg];
    }

    method RemoveModelRegistration(client: string, id: string, provider: string)
      modifies `models
      ensures models == Put(old(models), id, DropN(Lookup(old(models), id), client, provider, 1))
    {
      if id !in models {
        PutBack(models, id);
        return;
      }
      var reg := models[id];
      reg := reg.(count := reg.count - 1, quota := reg.quota - {client}, suspended := reg.suspended - {client});
      if reg.count < 0 {
        reg := reg.(count := 0);
      }
      if provider != "" && provider in reg.providers {
        if reg.providers[provider] <= 1 {
          reg := reg.(providers := reg.providers - {provider}, infoByProvider := reg.infoByProvider - {provider});
        } else {
          reg := reg.(providers := reg.providers[provider := reg.providers[provider] - 1]);
        }
      }
      models := models[id := reg];
      if reg.count <= 0 {
        models := models - {id};
      }
    }

    method AddTimes(id: string, provider: string, info: ModelInfo, n: nat)
      modifies `models
      ensures models == Put(old(models), id, AddN(Lookup(old(models), id), provider, info, n))
    {
      hide AddN;
      NothingAdded(Lookup(models, id), provider, info);
      PutBack(models, id);
      for i := 0 to n
        invariant models == Put(old(models), id, AddN(Lookup(old(models), id), provider, info, i))
      {
        AddOneMore(Lookup(old(models), id), provider, info, i);
        AddModelRegistration(id, provider, info);
      }
    }

    method RemoveTimes(client: string, id: string, provider: string, n: nat)
      modifies `models
      ensures models == Put(old(models), id, DropN(Lookup(old(models), id), client, provider, n))
    {
      hide DropN;
      NoneDropped(Lookup(models, id), client, provider);
      PutBack(models, id);
      for i := 0 to n
        invariant models == Put(old(models), id, DropN(Lookup(old(models), id), client, provider, i))
      {
        DropOneMore(Lookup(old(models), id), client, provider, i);
        RemoveModelRegistration(client, id, provider);
      }
    }

    // ----- the five loops over an existing client

    method MoveOutLoop(ch: Change)
      requires ch.newCounts.Keys <= ch.infos.Keys
      modifies `models
      ensures Partly(ch, MoveOut, models, old(models), {})
    {
      var todo := if Moved(ch) && ch.oldProvider != "" then ch.newCounts.Keys else {};
      MoveOutScope(ch, models, todo);
      while todo != {}
        invariant todo != {} ==> Moved(ch) && ch.oldProvider != ""
        invariant todo <= ch.newCounts.Keys && Partly(ch, MoveOut, models, old(models), todo)
      {
        ghost var some := Witness(todo);
        var id :| id in todo;
        ghost var before := models;
        MoveOutOne(ch, id);
        OneDone(ch, MoveOut, before, old(models), todo, id, models);
        todo := todo - {id};
      }
    }

    method MoveOutOne(ch: Change, id: string)
      requires ch.newCounts.Keys <= ch.infos.Keys && id in ch.newCounts && Moved(ch) && ch.oldProvider != ""
      modifies `models
      ensures models == Put(old(models), id, After(ch, MoveOut, id, Lookup(old(models), id)))
    {
      var newCount, oldCount := ch.newCounts[id], Times(ch.oldCounts, id);
      PutBack(models, id);
      if newCount == 0 || oldCount == 0 { return; }
      var toRemove := newCount;
      if oldCount < toRemove { toRemove := oldCount; }
      if id in models && ch.oldProvider in models[id].providers {
        var reg := models[id];
        var count := reg.providers[ch.oldProvider];
        if count <= toRemove {
          reg := reg.(providers := reg.providers - {ch.oldProvider}, infoByProvider := reg.infoByProvider - {ch.oldProvider});
        } else {
          reg := reg.(providers := reg.providers[ch.oldProvider := count - toRemove]);
        }
        models := models[id := reg];
      }
    }

    method DropRemovedLoop(ch: Change)
      requires ch.newCounts.Keys <= ch.infos.Keys
      modifies `models
      ensures Partly(ch, DropRemoved, models, old(models), {})
    {
      var todo := set id | id in ch.oldCounts && Times(ch.newCounts, id) == 0;
      RemovedScope(ch, models, todo);
      while todo != {}
        invariant todo <= ch.oldCounts.Keys && forall id :: id in todo ==> Times(ch.newCounts, id) == 0
        invariant Partly(ch, DropRemoved, models, old(models), todo)
      {
        ghost var some := Witness(todo);
        var id :| id in todo;
        ghost var before := models;
        RemoveTimes(ch.client, id, ch.oldProvider, ch.oldCounts[id]);
        OneDone(ch, DropRemoved, before, old(models), todo, id, models);
        todo := todo - {id};
      }
    }

    method DropOverageLoop(ch: Change)
      requires ch.newCounts.Keys <= ch.infos.Keys
      modifies `models
      ensures Partly(ch, DropOverage, models, old(models), {})
    {
      var todo := ch.oldCounts.Keys;
      OverageScope(ch, models);
      while todo != {}
        invariant todo <= ch.oldCounts.Keys && Partly(ch, DropOverage, models, old(models), todo)
      {
        ghost var some := Witness(todo);
        var id :| id in todo;
        ghost var before := models;
        var newCount, oldCount := Times(ch.newCounts, id), ch.oldCounts[id];
        PutBack(models, id);
        if newCount != 0 && newCount < oldCount {
          RemoveTimes(ch.client, id, ch.oldProvider, oldCount - newCount);
        }
        OneDone(ch, DropOverage, before, old(models), todo, id, models);
        todo := todo - {id};
      }
    }

    method AddNewLoop(ch: Change)
      requires ch.newCounts.Keys <= ch.infos.Keys
      modifies `models
      ensures Partly(ch, AddNew, models, old(models), {})
    {
      var todo := ch.newCounts.Keys;
      AddNewScope(ch, models);
      while todo != {}
        invariant todo <= ch.newCounts.Keys && Partly(ch, AddNew, models, old(models), todo)
      {
        ghost var some := Witness(todo);
        var id :| id in todo;
        ghost var before := models;
        var newCount, oldCount := ch.newCounts[id], Times(ch.oldCounts, id);
        PutBack(models, id);
        if oldCount < newCount {
          AddTimes(id, ch.provider, ch.infos[id], newCount - oldCount);
        }
        OneDone(ch, AddNew, before, old(models), todo, id, models);
        todo := todo - {id};
      }
    }

    method RefreshLoop(ch: Change)
      requires ch.newCounts.Keys <= ch.infos.Keys
      modifies `models
      ensures Partly(ch, Refresh, models, old(models), {})
    {
      var todo := ch.newCounts.Keys;
      RefreshScope(ch, models);
      while todo != {}
        invariant todo <= ch.newCounts.Keys && Partly(ch, Refresh, models, old(models), todo)
      {
        ghost var some := Witness(todo);
        var id :| id in todo;
        ghost var before := models;
        RefreshOne(ch, id);
        OneDone(ch, Refresh, before, old(models), todo, id, models);
        todo := todo - {id};
      }
    }

    method RefreshOne(ch: Change, id: string)
      requires ch.newCounts.Keys <= ch.infos.Keys && id in ch.newCounts
      modifies `models
      ensures models == Put(old(models), id, After(ch, Refresh, id, Lookup(old(models), id)))
    {
      PutBack(models, id);
      if id !in models || ch.newCounts[id] == 0 { return; }
      var reg := models[id].(info := ch.infos[id]);
      if ch.provider != "" {
        reg := reg.(infoByProvider := reg.infoByProvider[ch.provider := ch.infos[id]]);
      }
      reg := reg.(quota := reg.quota - {ch.client}, suspended := reg.suspended - {ch.client});
      if Moved(ch) && ch.provider != "" && Times(ch.oldCounts, id) != 0 {
        var overlapCount := ch.newCounts[id];
        if ch.oldCounts[id] < overlapCount { overlapCount := ch.oldCounts[id]; }
        if overlapCount > 0 {
          var had := if ch.provider in reg.providers then reg.providers[ch.provider] else 0;
          reg := reg.(providers := reg.providers[ch.provider := had + overlapCount]);
        }
      }
      models := models[id := reg];
    }

    // ----- clients come and go

    method ReconcileModels(ch: Change)
      requires ch.newCounts.Keys <= ch.infos.Keys
      modifies `models
      ensures models == ReconciledAll(old(models), ch)
    {
      hide *;
      MoveOutLoop(ch);
      ghost var m1 := models;
      DropRemovedLoop(ch);
      ghost var m2 := models;
      DropOverageLoop(ch);
      ghost var m3 := models;
      AddNewLoop(ch);
      ghost var m4 := models;
      RefreshLoop(ch);
      FiveStages(ch, old(models), m1, m2, m3, m4, models);
    }

    method AddAll(ids: seq<string>, provider: string, infos: map<string, ModelInfo>)
      requires forall id :: id in ids ==> id in infos
      modifies `models
      ensures models == AddedAll(old(models), provider, CountsOf(ids), infos)
    {
      hide AddedAt, AddN, CountsOf;
      AddedNone(models, provider, infos);
      for i := 0 to |ids|
        invariant Adding(models, old(models), provider, ids[..i], infos)
      {
        ghost var before := models;
        AddModelRegistration(ids[i], provider, infos[ids[i]]);
        AddingOne(before, old(models), provider, ids[..i], infos, ids[i], models);
        assert ids[..i + 1] == ids[..i] + [ids[i]];
      }
      assert ids[..|ids|] == ids;
      AddedEvery(models, old(models), provider, ids, infos);
    }

    method UnregisterClientInternal(client: string)
      requires Valid()
      modifies `models, `clientModels, `clientModelInfos, `clientProviders
      ensures View() == Unregistered(old(View()), client)
      ensures WellFormed(View()) && CountersTrue(View())
    {
      UnregisteredIsTrue(View(), client);
      hide Valid, CountersTrue;
      var hasProvider := client in clientProviders;
      if client !in clientModels {
        clientProviders := clientProviders - {client};
        return;
      }
      DropAll(client, clientModels[client], if hasProvider then clientProviders[client] else "", hasProvider);
      clientModels, clientModelInfos := clientModels - {client}, clientModelInfos - {client};
      if hasProvider {
        clientProviders := clientProviders - {client};
      }
    }

    method DropAll(client: string, ids: seq<string>, provider: string, hasProvider: bool)
      requires hasProvider <==> provider != ""
      modifies `models
      ensures models == DroppedAll(old(models), client, provider, CountsOf(ids))
    {
      hide DropN, CountsOf;
      DroppedNone(models, client, provider);
      for i := 0 to |ids|
        invariant Dropping(models, old(models), client, provider, ids[..i])
      {
        ghost var before := models;
        DropListing(client, ids[i], provider, hasProvider);
        DroppingOne(before, old(models), client, provider, ids[..i], ids[i], models);
        assert ids[..i + 1] == ids[..i] + [ids[i]];
      }
      assert ids[..|ids|] == ids;
      DroppedEvery(models, old(models), client, provider, ids);
    }

    method DropListing(client: string, id: string, provider: string, hasProvider: bool)
      requires hasProvider <==> provider != ""
      modifies `models
      ensures models == Put(old(models), id, DropN(Lookup(old(models), id), client, provider, 1))
    {
      PutBack(models, id);
      if id in models {
        var reg := models[id];
        reg := reg.(count := reg.count - 1, quota := reg.quota - {client}, suspended := reg.suspended - {client});
        if hasProvider && provider in reg.providers {
          if reg.providers[provider] <= 1 {
            reg := reg.(providers := reg.providers - {provider}, infoByProvider := reg.infoByProvider - {provider});
          } else {
            reg := reg.(providers := reg.providers[provider := reg.providers[provider] - 1]);
          }
        }
        models := models[id := reg];
        if reg.count <= 0 {
          models := models - {id};
        }
      }
    }

    method UnregisterClient(client: string)
      requires Valid()
      modifies this
      ensures Valid() && clock == old(clock) && View() == Unregistered(old(View()), client)
    {
      UnregisterClientInternal(client);
      Invalidate();
    }

    /** `infos` is determined by the request (FirstInfosUnique). */
    method RegisterClient(client: string, provider: string, listed: seq<Option<ModelInfo>>)
      returns (ghost infos: map<string, ModelInfo>)
      requires Valid()
      modifies this
      ensures Valid() && clock == old(clock) && FirstInfos(Usable(listed), infos)
      ensures View() == Registered(old(View()), client, provider, IdsOf(Usable(listed)), infos)
    {
      hide Registered, Usable, IdsOf, CountersTrue, WellFormed, CountsOf, FirstInfos;
      var ids, counts, newModels := Collect(listed);
      infos := newModels;
      AllHaveInfos(Usable(listed), newModels);
      if |ids| == 0 {
        RegisterNothing(client, provider, newModels);
      } else {
        RegisterSome(client, provider, ids, counts, newModels);
      }
      Invalidate();
    }

    method RegisterNothing(client: string, provider: string, infos: map<string, ModelInfo>)
      requires Valid()
      modifies `models, `clientModels, `clientModelInfos, `clientProviders
      ensures View() == Registered(old(View()), client, provider, [], infos)
      ensures WellFormed(View()) && CountersTrue(View())
    {
      RegisteredHere(client, provider, [], infos);
      hide CountersTrue, DroppedAll, Valid, WellFormed;
      UnregisterClientInternal(client);
      clientModels, clientModelInfos := clientModels - {client}, clientModelInfos - {client};
      assert clientProviders - {client} == clientProviders;
      clientProviders := clientProviders - {client};
    }

    method RegisterSome(client: string, provider: string, ids: seq<string>, counts: map<string, nat>, infos: map<string, ModelInfo>)
      requires Valid() && ids != [] && counts == CountsOf(ids) && forall id :: id in ids ==> id in infos
      modifies `models, `clientModels, `clientModelInfos, `clientProviders
      ensures View() == Registered(old(View()), client, provider, ids, infos)
      ensures WellFormed(View()) && CountersTrue(View())
    {
      hide CountersTrue, CountsOf, ReconciledAll, AddedAll, Valid;
      ChangeKeys(View(), client, provider, ids, infos);
      RegisteredHere(client, provider, ids, infos);
      if client !in clientModels {
        AddAll(ids, provider, infos);
      } else {
        var oldProvider := if client in clientProviders then clientProviders[client] else "";
        var ch := Change(client, oldProvider, CountsOf(clientModels[client]), provider, counts, infos);
        ReconcileModels(ch);
      }
      clientModels := clientModels[client := ids];
      clientModelInfos := clientModelInfos[client := infos];
      if provider != "" {
        clientProviders := clientProviders[client := provider];
      } else {
        clientProviders := clientProviders - {client};
      }
    }

    lemma RegisteredHere(client: string, provider: string, ids: seq<string>, infos: map<string, ModelInfo>)
      requires Valid() && forall id :: id in ids ==> id in infos
      ensures WellFormed(Registered(View(), client, provider, ids, infos))
      ensures CountersTrue(Registered(View(), client, provider, ids, infos))
    {
      hide Registered, WellFormed, CountersTrue;
      RegisteredIsTrue(View(), client, provider, ids, infos);
    }

    // ----- quota and suspension marks

    method SetModelQuotaExceeded(client: string, id: string, now: Time)
      requires Valid()
      modifies this
      ensures Valid() && clock == old(clock) && View() == old(View()).(models := models)
      ensures models == if id !in old(models) then old(models)
                        else old(models)[id := old(models)[id].(quota := old(models)[id].quota[client := now])]
    {
      if id in models {
        ghost var was := View();
        models := models[id := models[id].(quota := models[id].quota[client := now])];
        MarksAreNotCounted(was, models);
        Invalidate();
      }
    }

    method ClearModelQuotaExceeded(client: string, id: string)
      requires Valid()
      modifies this
      ensures Valid() && clock == old(clock) && View() == old(View()).(models := models)
      ensures models == if id !in old(models) then old(models)
                        else old(models)[id := old(models)[id].(quota := old(models)[id].quota - {client})]
    {
      if id in models {
        ghost var was := View();
        models := models[id := models[id].(quota := models[id].quota - {client})];
        MarksAreNotCounted(was, models);
        Invalidate();
      }
    }

    /** A first reason stays until the client is resumed. */
    method SuspendClientModel(client: string, id: string, reason: string)
      requires Valid()
      modifies this
      ensures Valid() && clock == old(clock) && View() == old(View()).(models := models)
      ensures models == if client == "" || id == "" || id !in old(models) || client in old(models)[id].suspended then old(models)
                        else old(models)[id := old(models)[id].(suspended := old(models)[id].suspended[client := reason])]
    {
      if client == "" || id == "" || id !in models || client in models[id].suspended { return; }
      ghost var was := View();
      models := models[id := models[id].(suspended := models[id].suspended[client := reason])];
      MarksAreNotCounted(was, models);
      Invalidate();
    }

    method ResumeClientModel(client: string, id: string)
      requires Valid()
      modifies this
      ensures Valid() && clock == old(clock) && View() == old(View()).(models := models)
      ensures models == if client == "" || id == "" || id !in old(models) then old(models)
                        else old(models)[id := old(models)[id].(suspended := old(models)[id].suspended - {client})]
    {
      if client == "" || id == "" || id !in models { return; }
      if client !in models[id].suspended {
        NotSuspended(models, client, id);
        return;
      }
      ghost var was := View();
      models := models[id := models[id].(suspended := models[id].suspended - {client})];
      MarksAreNotCounted(was, models);
      Invalidate();
    }

    method CleanupExpiredQuotas(now: Time)
      requires Valid()
      modifies this
      ensures Valid() && clock == old(clock) && View() == old(View()).(models := CleanedAll(old(models), now))
    {
      hide CountersTrue, CacheTrue;
      ghost var was := View();
      var cleaned, invalidated := CleanAll(models, now);
      MarksAreNotCounted(was, cleaned);
      models := cleaned;
      if invalidated {
        Invalidate();
        NothingCached(models);
      }
      hide CleanedAll;
    }

    static method CleanAll(models: Models, now: Time) returns (cleaned: Models, invalidated: bool)
      ensures cleaned == CleanedAll(models, now)
      ensures !invalidated ==> cleaned == models
    {
      hide Cleaned;
      cleaned, invalidated := models, false;
      var todo := models.Keys;
      while todo != {}
        invariant todo <= models.Keys == cleaned.Keys
        invariant forall id :: id in models ==> cleaned[id] == if id in todo then models[id] else Cleaned(models[id], now)
        invariant !invalidated ==> cleaned == models
      {
        ghost var some := Witness(todo);
        var id :| id in todo;
        var reg, removed := CleanOne(models[id], now);
        if removed {
          cleaned := cleaned[id := reg];
          invalidated := true;
        }
        todo := todo - {id};
      }
      assert cleaned == CleanedAll(models, now);
    }

    static method CleanOne(reg: Registration, now: Time) returns (cleaned: Registration, removed: bool)
      ensures cleaned == Cleaned(reg, now)
      ensures !removed ==> cleaned == reg
    {
      cleaned, removed := reg, false;
      var todo := reg.quota.Keys;
      while todo != {}
        invariant todo <= reg.quota.Keys && cleaned == reg.(quota := cleaned.quota)
        invariant cleaned.quota == map client | client in reg.quota && (client in todo || now < reg.quota[client] + QUOTA_WINDOW) :: reg.quota[client]
        invariant !removed ==> cleaned == reg
      {
        ghost var some := Witness(todo);
        var client :| client in todo;
        if now >= reg.quota[client] + QUOTA_WINDOW {
          cleaned := cleaned.(quota := cleaned.quota - {client});
          removed := true;
        }
        todo := todo - {client};
      }
    }

    // ----- queries

    static method CountOverQuota(reg: Registration, now: Time, earliest: Time) returns (expired: nat, expiresAt: Time)
      ensures expired == |OverQuota(reg, now)|
      ensures Sooner(reg, now, earliest, expiresAt)
    {
      expired, expiresAt := 0, earliest;
      var todo := reg.quota.Keys;
      ghost var counted: set<string> := {};
      while todo != {}
        invariant todo <= reg.quota.Keys && expired == |counted|
        invariant forall client :: client in counted <==> client in OverQuota(reg, now) && client !in todo
        invariant earliest == 0 || 0 < expiresAt <= earliest
        invariant forall client :: client in counted ==> 0 < expiresAt <= reg.quota[client] + QUOTA_WINDOW
        invariant expiresAt == earliest || exists client :: client in counted && expiresAt == reg.quota[client] + QUOTA_WINDOW
      {
        ghost var some := Witness(todo);
        var client :| client in todo;
        var recoveryAt := reg.quota[client] + QUOTA_WINDOW;
        if now < recoveryAt {
          expired := expired + 1;
          counted := counted + {client};
          if expiresAt == 0 || recoveryAt < expiresAt {
            expiresAt := recoveryAt;
          }
        }
        todo := todo - {client};
      }
      assert counted == OverQuota(reg, now);
    }

    static method CountSuspended(reg: Registration) returns (cooldown: nat, other: nat)
      ensures cooldown == |InCooldown(reg)| && other == |Barred(reg)|
    {
      cooldown, other := 0, 0;
      var todo := reg.suspended.Keys;
      ghost var cool: set<string>, barred: set<string> := {}, {};
      while todo != {}
        invariant todo <= reg.suspended.Keys && cooldown == |cool| && other == |barred|
        invariant forall client :: client in cool <==> client in InCooldown(reg) && client !in todo
        invariant forall client :: client in barred <==> client in Barred(reg) && client !in todo
      {
        ghost var some := Witness(todo);
        var client :| client in todo;
        if IsCooldown(reg.suspended[client]) {
          cooldown := cooldown + 1;
          cool := cool + {client};
        } else {
          other := other + 1;
          barred := barred + {client};
        }
        todo := todo - {client};
      }
      assert cool == InCooldown(reg) && barred == Barred(reg);
    }

    method BuildAvailableModels(handler: string, now: Time) returns (list: seq<Rendered>, expiresAt: Time)
      ensures Answer(list, handler, models, now) && IsFirstRecovery(models, expiresAt, now)
    {
      hide Available, Sources, OverQuota;
      list, expiresAt := [], 0;
      var todo := models.Keys;
      BuiltNothing(handler, models, now);
      while todo != {}
        invariant todo <= models.Keys
        invariant Built(list, expiresAt, handler, models, models.Keys - todo, now)
      {
        ghost var some := Witness(todo);
        var id :| id in todo;
        var reg := models[id];
        ghost var done, list0, earliest := models.Keys - todo, list, expiresAt;
        var expired, at := CountOverQuota(reg, now, expiresAt);
        var cooldown, other := CountSuspended(reg);
        expiresAt := at;
        var effective := reg.count - expired - other;
        if effective < 0 { effective := 0; }
        if effective > 0 || (reg.count > 0 && (expired > 0 || cooldown > 0) && other == 0) {
          list := list + [Rendered(handler, reg.info)];
        }
        AvailableByCount(reg, now, expired, cooldown, other);
        BuiltOne(list0, earliest, handler, models, done, now, id, list, at);
        todo := todo - {id};
        assert models.Keys - todo == done + {id};
      }
      assert models.Keys - todo == models.Keys;
      BuiltAll(list, expiresAt, handler, models, now);
    }

    /** The answer, from the cache or built afresh, is right at the time of the call; for a
        call with a clock behind an earlier one it is that of the cached build. */
    method GetAvailableModels(handler: string, now: Time) returns (list: seq<Rendered>)
      requires Valid()
      modifies `cache, `builtAt, `clock
      ensures Valid() && clock == if old(clock) < now then now else old(clock)
      ensures old(clock) <= now ==> Answer(list, handler, models, now)
      ensures handler in cache && handler in builtAt && Answer(list, handler, models, if builtAt[handler] <= now then now else builtAt[handler])
      ensures forall other :: other != handler && other in old(cache) ==> other in cache && cache[other] == old(cache)[other]
    {
      hide CountersTrue, WellFormed, Answer, CacheTrue, IsFirstRecovery;
      CacheKeys(cache, builtAt, models);
      clock := if clock < now then now else clock;
      if handler in cache && (cache[handler].expiresAt == 0 || now < cache[handler].expiresAt) {
        list := cache[handler].list;
        CachedAnswer(cache, builtAt, models, handler, now);
        return;
      }
      var built, expiresAt := BuildAvailableModels(handler, now);
      CacheMore(cache, builtAt, models, handler, built, expiresAt, now);
      cache, builtAt := cache[handler := CacheEntry(built, expiresAt)], builtAt[handler := now];
      list := built;
    }

    /** The providers whose clients list the model, best supplied first. */
    method GetModelProviders(id: string) returns (names: seq<string>)
      requires Valid()
      ensures forall p :: p in names <==> p != "" && Of(View(), id)(p) > 0
      ensures forall i, j :: 0 <= i < j < |names| ==>
        Of(View(), id)(names[i]) > Of(View(), id)(names[j])
        || (Of(View(), id)(names[i]) == Of(View(), id)(names[j]) && Before(names[i], names[j]))
    {
      hide Valid, CountersTrue, Of, Total, SuppliesMore;
      CountedHere(id);
      names := [];
      if id !in models || |models[id].providers| == 0 { return; }
      names := SortedNames(models[id].providers);
      forall i, j | 0 <= i < j < |names|
        ensures Of(View(), id)(names[i]) > Of(View(), id)(names[j])
          || (Of(View(), id)(names[i]) == Of(View(), id)(names[j]) && Before(names[i], names[j])) {
        assert names[i] in models[id].providers && names[j] in models[id].providers;
        SuppliesCompared(Supply(names[i], models[id].providers[names[i]]), Supply(names[j], models[id].providers[names[j]]));
      }
    }

    static method SortedNames(providers: map<string, int>) returns (names: seq<string>)
      ensures forall p :: p in names <==> p in providers && providers[p] > 0
      ensures forall i, j :: 0 <= i < j < |names| ==>
        && names[i] in providers && names[j] in providers
        && SuppliesMore(Supply(names[i], providers[names[i]]), Supply(names[j], providers[names[j]]))
    {
      hide SuppliesMore, Supplies, Ordering.Lists;
      SuppliesAreOrdered();
      var sorted := Sort(Supplies(providers), SuppliesMore);
      names := [];
      while |names| < |sorted|
        invariant |names| <= |sorted| && forall i :: 0 <= i < |names| ==> names[i] == sorted[i].name
      {
        names := names + [sorted[|names|].name];
      }
      NamesOfSupplies(providers, sorted, names);
    }

    lemma CountedHere(id: string)
      requires Valid()
      ensures id !in models ==> forall p :: Of(View(), id)(p) == 0
      ensures id in models ==>
        (forall p :: p in models[id].providers <==> p != "" && Of(View(), id)(p) > 0)
        && forall p :: p in models[id].providers ==> models[id].providers[p] == Of(View(), id)(p)
    {
      assert Counted(Lookup(models, id), Total(View(), id), Of(View(), id));
      if id !in models {
        NobodyYet(View(), id);
      }
    }
  }

  /** `at` is the earlier of `earliest` and the first recovery after `now`; 0 is none. */
  ghost predicate Sooner(reg: Registration, now: Time, earliest: Time, at: Time) {
    && (earliest == 0 || 0 < at <= earliest)
    && (forall client :: client in OverQuota(reg, now) ==> 0 < at <= reg.quota[client] + QUOTA_WINDOW)
    && (at == earliest || exists client :: client in OverQuota(reg, now) && at == reg.quota[client] + QUOTA_WINDOW)
  }

  /** The answer and its expiry over the models in `done`. */
  ghost predicate Built(list: seq<Rendered>, at: Time, handler: string, models: Models, done: set<string>, now: Time) {
    && (at == 0 || exists id, client :: id in models && id in done && client in OverQuota(models[id], now) &&
                     at == models[id].quota[client] + QUOTA_WINDOW)
    && (forall entry :: multiset(list)[entry] ==
         if entry.handler == handler then |set id | id in Sources(models, entry.info, now) && id in done| else 0)
    && forall id, client :: id in models && id in done && client in models[id].quota && now < models[id].quota[client] + QUOTA_WINDOW ==>
         0 < at <= models[id].quota[client] + QUOTA_WINDOW
  }

  lemma BuiltNothing(handler: string, models: Models, now: Time)
    ensures Built([], 0, handler, models, models.Keys - models.Keys, now)
  {
    forall info ensures (set id | id in Sources(models, info, now) && id in models.Keys - models.Keys) == {} {
    }
  }

  lemma AvailableByCount(reg: Registration, now: Time, expired: nat, cooldown: nat, other: nat)
    requires expired == |OverQuota(reg, now)| && cooldown == |InCooldown(reg)| && other == |Barred(reg)|
    ensures Available(reg, now) <==> Offered(reg.count, expired, cooldown, other)
  {
  }

  lemma BuiltOne(list: seq<Rendered>, earliest: Time, handler: string, models: Models, done: set<string>, now: Time,
                 id: string, list': seq<Rendered>, at: Time)
    requires Built(list, earliest, handler, models, done, now) && id in models && id !in done
    requires Sooner(models[id], now, earliest, at)
    requires list' == if Available(models[id], now) then list + [Rendered(handler, models[id].info)] else list
    ensures Built(list', at, handler, models, done + {id}, now)
  {
    hide Available;
    forall entry: Rendered | entry.handler == handler
      ensures multiset(list')[entry] == |set x | x in Sources(models, entry.info, now) && x in done + {id}| {
      var before := set x | x in Sources(models, entry.info, now) && x in done;
      var now' := set x | x in Sources(models, entry.info, now) && x in done + {id};
      if id in Sources(models, entry.info, now) {
        assert now' == before + {id};
        assert entry == Rendered(handler, models[id].info);
      } else {
        assert now' == before;
      }
    }
    forall client | client in models[id].quota && now < models[id].quota[client] + QUOTA_WINDOW
      ensures 0 < at <= models[id].quota[client] + QUOTA_WINDOW {
      assert client in OverQuota(models[id], now);
    }
  }

  lemma BuiltAll(list: seq<Rendered>, at: Time, handler: string, models: Models, now: Time)
    requires Built(list, at, handler, models, models.Keys, now)
    ensures Answer(list, handler, models, now) && IsFirstRecovery(models, at, now)
  {
    forall info ensures (set id | id in Sources(models, info, now) && id in models.Keys) == Sources(models, info, now) {
    }
  }

  datatype Supply = Supply(name: string, count: int)

  function Supplies(providers: map<string, int>): set<Supply> {
    set p | p in providers && providers[p] > 0 :: Supply(p, providers[p])
  }

  predicate SuppliesMore(a: Supply, b: Supply) {
    if a.count == b.count then Before(a.name, b.name) else a.count > b.count
  }

  lemma SuppliesAreOrdered()
    ensures StrictOrder(SuppliesMore)
  {
    BeforeIsOrder();
  }

  lemma SuppliesCompared(a: Supply, b: Supply)
    ensures SuppliesMore(a, b) <==> a.count > b.count || (a.count == b.count && Before(a.name, b.name))
  {
  }

  lemma NamesOfSupplies(providers: map<string, int>, sorted: seq<Supply>, names: seq<string>)
    requires |names| == |sorted| && forall i :: 0 <= i < |names| ==> names[i] == sorted[i].name
    requires Ordering.Lists(sorted, Supplies(providers), SuppliesMore)
    ensures forall p :: p in names <==> p in providers && providers[p] > 0
    ensures forall i, j :: 0 <= i < j < |names| ==>
      && names[i] in providers && names[j] in providers
      && SuppliesMore(Supply(names[i], providers[names[i]]), Supply(names[j], providers[names[j]]))
  {
    forall i | 0 <= i < |sorted| ensures names[i] in providers && providers[names[i]] > 0 && sorted[i] == Supply(names[i], providers[names[i]]) {
      assert sorted[i] in sorted;
    }
    forall p | p in providers && providers[p] > 0 ensures p in names {
      assert Supply(p, providers[p]) in sorted;
      var i :| 0 <= i < |sorted| && sorted[i] == Supply(p, providers[p]);
      assert names[i] == p;
    }
  }

  lemma NotSuspended(models: Models, client: string, id: string)
    requires id in models && client !in models[id].suspended
    ensures models[id := models[id].(suspended := models[id].suspended - {client})] == models
  {
    assert models[id].suspended - {client} == models[id].suspended;
  }

  /** The five loops in a row. */
  lemma FiveStages(ch: Change, m0: Models, m1: Models, m2: Models, m3: Models, m4: Models, m5: Models)
    requires ch.newCounts.Keys <= ch.infos.Keys
    requires Partly(ch, MoveOut, m1, m0, {}) && Partly(ch, DropRemoved, m2, m1, {}) && Partly(ch, DropOverage, m3, m2, {})
    requires Partly(ch, AddNew, m4, m3, {}) && Partly(ch, Refresh, m5, m4, {})
    ensures m5 == ReconciledAll(m0, ch)
  {
    forall id ensures Lookup(m5, id) == Lookup(ReconciledAll(m0, ch), id) {
      FiveStagesAt(ch, m0, m1, m2, m3, m4, m5, id);
      UnlistedStays(ch, id);
      hide Reconciled, Partly;
    }
    SameLookups(m5, ReconciledAll(m0, ch));
  }

  lemma FiveStagesAt(ch: Change, m0: Models, m1: Models, m2: Models, m3: Models, m4: Models, m5: Models, id: string)
    requires ch.newCounts.Keys <= ch.infos.Keys
    requires Partly(ch, MoveOut, m1, m0, {}) && Partly(ch, DropRemoved, m2, m1, {}) && Partly(ch, DropOverage, m3, m2, {})
    requires Partly(ch, AddNew, m4, m3, {}) && Partly(ch, Refresh, m5, m4, {})
    ensures Lookup(m5, id) == Reconciled(ch, id, Lookup(m0, id))
  {
    hide After, Lookup;
  }

  lemma UnlistedStays(ch: Change, id: string)
    requires ch.newCounts.Keys <= ch.infos.Keys
    ensures id !in ch.newCounts ==> Reconciled(ch, id, None) == None
  {
  }

  /** How far adding the listed models one by one has come. */
  ghost predicate Adding(models: Models, before: Models, p: string, ids: seq<string>, infos: map<string, ModelInfo>) {
    && (forall id :: id in ids ==> id in infos)
    && forall id :: Lookup(models, id) == AddedAt(before, p, CountsOf(ids), infos, id)
  }

  lemma AddedNone(models: Models, p: string, infos: map<string, ModelInfo>)
    ensures Adding(models, models, p, [], infos)
  {
  }

  lemma AddingOne(models: Models, before: Models, p: string, ids: seq<string>, infos: map<string, ModelInfo>, id: string, models': Models)
    requires Adding(models, before, p, ids, infos) && id in infos
    requires models' == Put(models, id, AddN(Lookup(models, id), p, infos[id], 1))
    ensures Adding(models', before, p, ids + [id], infos)
  {
    hide AddN;
    forall other ensures Lookup(models', other) == AddedAt(before, p, CountsOf(ids + [id]), infos, other) {
      assert Lookup(models, other) == AddedAt(before, p, CountsOf(ids), infos, other);
      CountsAreMultiplicities(ids, other);
      CountsAreMultiplicities(ids + [id], other);
      if other == id {
        NothingAdded(Lookup(before, id), p, infos[id]);
        AddOneMore(Lookup(before, id), p, infos[id], multiset(ids)[id]);
      }
    }
  }

  lemma AddedEvery(models: Models, before: Models, p: string, ids: seq<string>, infos: map<string, ModelInfo>)
    requires Adding(models, before, p, ids, infos)
    ensures models == AddedAll(before, p, CountsOf(ids), infos)
  {
    hide AddN;
    SameLookups(models, AddedAll(before, p, CountsOf(ids), infos));
  }

  /** How far dropping the listed models one by one has come. */
  ghost predicate Dropping(models: Models, before: Models, client: string, p: string, ids: seq<string>) {
    forall id :: Lookup(models, id) == DropN(Lookup(before, id), client, p, Times(CountsOf(ids), id))
  }

  lemma DroppedNone(models: Models, client: string, p: string)
    ensures Dropping(models, models, client, p, [])
  {
  }

  lemma DroppingOne(models: Models, before: Models, client: string, p: string, ids: seq<string>, id: string, models': Models)
    requires Dropping(models, before, client, p, ids)
    requires models' == Put(models, id, DropN(Lookup(models, id), client, p, 1))
    ensures Dropping(models', before, client, p, ids + [id])
  {
    hide DropN;
    forall other ensures Lookup(models', other) == DropN(Lookup(before, other), client, p, Times(CountsOf(ids + [id]), other)) {
      assert Lookup(models, other) == DropN(Lookup(before, other), client, p, Times(CountsOf(ids), other));
      CountsAreMultiplicities(ids, other);
      CountsAreMultiplicities(ids + [id], other);
      if other == id {
        DropOneMore(Lookup(before, id), client, p, multiset(ids)[id]);
      }
    }
  }

  lemma DroppedEvery(models: Models, before: Models, client: string, p: string, ids: seq<string>)
    requires Dropping(models, before, client, p, ids)
    ensures models == DroppedAll(before, client, p, CountsOf(ids))
  {
    forall id ensures Lookup(models, id) == Lookup(DroppedAll(before, client, p, CountsOf(ids)), id) {
      NothingDropped(client, p, Times(CountsOf(ids), id));
      hide DropN;
    }
    SameLookups(models, DroppedAll(before, client, p, CountsOf(ids)));
  }

  lemma AllHaveInfos(usable: seq<ModelInfo>, infos: map<string, ModelInfo>)
    requires FirstInfos(usable, infos)
    ensures forall id :: id in IdsOf(usable) ==> id in infos
  {
  }

  lemma NothingAdded(reg: Option<Registration>, p: string, info: ModelInfo)
    ensures AddN(reg, p, info, 0) == reg
  {
  }

  lemma NoneDropped(reg: Option<Registration>, client: string, p: string)
    ensures DropN(reg, client, p, 0) == reg
  {
  }

  lemma MoveOutScope(ch: Change, models: Models, todo: set<string>)
    requires ch.newCounts.Keys <= ch.infos.Keys
    requires todo == if Moved(ch) && ch.oldProvider != "" then ch.newCounts.Keys else {}
    ensures Partly(ch, MoveOut, models, models, todo)
  {
  }

  lemma RemovedScope(ch: Change, models: Models, todo: set<string>)
    requires ch.newCounts.Keys <= ch.infos.Keys && todo == set id | id in ch.oldCounts && Times(ch.newCounts, id) == 0
    ensures Partly(ch, DropRemoved, models, models, todo)
  {
  }

  lemma OverageScope(ch: Change, models: Models)
    requires ch.newCounts.Keys <= ch.infos.Keys
    ensures Partly(ch, DropOverage, models, models, ch.oldCounts.Keys)
  {
  }

  lemma AddNewScope(ch: Change, models: Models)
    requires ch.newCounts.Keys <= ch.infos.Keys
    ensures Partly(ch, AddNew, models, models, ch.newCounts.Keys)
  {
  }

  lemma RefreshScope(ch: Change, models: Models)
    requires ch.newCounts.Keys <= ch.infos.Keys
    ensures Partly(ch, Refresh, models, models, ch.newCounts.Keys)
  {
  }
}
