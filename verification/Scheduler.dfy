/** The scheduler that answers every pick from incremental indexes
    (sdk/cockpit/auth/scheduler.go, sdk/cockpit/auth/scheduler_selection.go). */
module Scheduler {
  import opened Ordering
  import opened Credentials
  import opened ShardIndex
  import opened ShardCursors
  import opened Rotation
  import opened Selection
  import opened Gathering
  import opened Websockets
  import opened Providers

  ghost predicate Holds(state: ProviderScheduler, provider: string, auths: Known, clock: Time)
    reads state, state.Repr
  {
    state.providerKey == provider && state.Valid(clock) && state.auths == auths
  }

  lemma StillHolds(state: ProviderScheduler, model: ModelName, clock: Time, view: Entries)
    requires state.Shows(model, clock, view)
    ensures state.Valid(clock) && state in state.Repr && Holds(state, state.providerKey, state.auths, clock)
  {
  }

  function ProviderNames(known: Known): map<string, string> {
    map id | id in known && Enabled(known[id]) :: known[id].auth.provider
  }

  ghost predicate Filed(known: Known) {
    forall id :: id in known ==> known[id].auth.id == id && id != ""
  }

  /** What taking one auth out changes: its own provider's part, and its name there. */
  lemma WithoutOne(known: Known, id: string)
    ensures forall p :: OfProvider(known - {id}, p) ==
              if id in known && Enabled(known[id]) && known[id].auth.provider == p then OfProvider(known, p) - {id}
              else OfProvider(known, p)
    ensures ProviderNames(known - {id}) == ProviderNames(known) - {id}
  {
  }

  lemma WithoutFiled(known: Known, id: string)
    ensures var names := ProviderNames(known);
            && ProviderNames(known - {id}) == names - {id}
            && forall p :: OfProvider(known - {id}, p) ==
                 if id in names && names[id] == p then OfProvider(known, p) - {id} else OfProvider(known, p)
  {
    hide OfProvider;
    WithoutOne(known, id);
  }

  /** What filing a new snapshot changes, compared with having none. */
  lemma WithOneMore(known: Known, id: string, meta: Meta)
    ensures forall p :: OfProvider(known[id := meta], p) ==
              if Enabled(meta) && meta.auth.provider == p then OfProvider(known - {id}, p)[id := meta]
              else OfProvider(known - {id}, p)
    ensures ProviderNames(known[id := meta])
         == if Enabled(meta) then ProviderNames(known)[id := meta.auth.provider] else ProviderNames(known) - {id}
  {
  }

  /** Filing a snapshot changes what its own provider has, and what every other provider
      has once its predecessor is gone. */
  lemma FiledOne(known: Known, id: string, meta: Meta)
    requires Enabled(meta)
    ensures forall p :: OfProvider(known[id := meta], p) ==
              if p == meta.auth.provider then OfProvider(known, p)[id := meta] else OfProvider(known - {id}, p)
  {
    hide OfProvider, ProviderNames;
    WithOneMore(known, id, meta);
    ReplacedOne(known, id, meta);
  }

  lemma ReplacedOne(known: Known, id: string, meta: Meta)
    requires Enabled(meta)
    ensures var p := meta.auth.provider; OfProvider(known[id := meta], p) == OfProvider(known, p)[id := meta]
  {
  }

  /** The last snapshot of each auth in a list. */
  function Latest(auths: seq<Meta>): Known {
    if auths == [] then map[]
    else
      var last := auths[|auths| - 1];
      var before := Latest(auths[..|auths| - 1]);
      if last.auth.id == "" then before else before[last.auth.id := last]
  }

  function Cursor(cursors: Cursors, order: seq<string>, model: ModelName): nat {
    if (order, model) in cursors then cursors[(order, model)] else 0
  }

  lemma CurrentNothing(model: ModelName, now: Time)
    ensures AllCurrent(map[], model, now)
  {
  }

  lemma CurrentOne(view: Entries, model: ModelName, now: Time, provider: string)
    ensures Current(view, model, now) ==> AllCurrent(map[provider := view], model, now)
  {
  }

  /** A refusal that is right for current entries is right for just built shards and for
      punctual candidates. */
  lemma RefusedExactly(known: Known, order: seq<string>, request: Request, now: Time, views: map<string, Entries>, exact: bool, r: Outcome)
    requires Covers(views, known, Members(order), request.model, now) && (exact ==> AllCurrent(views, request.model, now))
    requires var pool, es := Candidates(known, Members(order), request), Gather(views, known, Members(order), request);
             Current(es, request.model, now) ==> IsOutcome(pool, request.model, now, r)
    ensures var pool := Candidates(known, Members(order), request);
            exact || AllPunctual(pool, request.model) ==> IsOutcome(pool, request.model, now, r)
  {
    hide Covers, Current, AllCurrent, Gather, Candidates, IsOutcome, AllPunctual, Members;
    if exact || AllPunctual(Candidates(known, Members(order), request), request.model) {
      ExactIsCurrent(views, known, Members(order), request, now, exact);
    }
  }

  /** The refusal that the counts give when nothing is ready is an answer. */
  lemma RefusedAnswers(known: Known, order: seq<string>, request: Request, strategy: Strategy, now: Time, views: map<string, Entries>,
                       exact: bool, r: Outcome)
    requires Covers(views, known, Members(order), request.model, now) && (exact ==> AllCurrent(views, request.model, now))
    requires r.NotFound? || r.Unavailable? || r.CoolingDown?
    requires var pool, es := Candidates(known, Members(order), request), Gather(views, known, Members(order), request);
             && IsBestPriority(es, None)
             && (Current(es, request.model, now) ==> IsOutcome(pool, request.model, now, r))
             && (r.NotFound? <==> pool == map[])
    ensures Answers(known, order, request, strategy, now, exact, r)
  {
    hide Covers, Current, AllCurrent, Gather, Candidates, IsOutcome, AllPunctual, Members, NoDueMissed, IsBestPriority, Answers;
    RefusedExactly(known, order, request, now, views, exact, r);
    RefusalMissesNoDue(views, known, order, Members(order), request, now, strategy, r);
    RefusalAnswers(known, order, request, strategy, now, exact, r);
  }

  lemma TurnsOverTops(known: Known, order: seq<string>, request: Request, now: Time, views: map<string, Entries>, priority: int, exact: bool)
    requires Covers(views, known, Members(order), request.model, now) && (exact ==> AllCurrent(views, request.model, now))
    requires IsBestOver(views, Members(order), AllowedBy(request), Some(priority))
    ensures var pool := Candidates(known, Members(order), request);
            exact || AllPunctual(pool, request.model) ==>
              Offers(views, order, priority, AllowedBy(request)) == TopProviders(pool, request.model, now, order)
  {
    hide Covers, Current, AllCurrent, Gather, Candidates, AllPunctual, Members, IsBestOver, IsBestPriority, Offers, TopProviders;
    if exact || AllPunctual(Candidates(known, Members(order), request), request.model) {
      ExactIsCurrent(views, known, Members(order), request, now, exact);
      BestOverAll(views, known, Members(order), request, now, Some(priority));
      OffersAreTops(views, known, order, request, now, priority);
    }
  }

  lemma CurrentMore(views: map<string, Entries>, model: ModelName, now: Time, provider: string, view: Entries)
    ensures AllCurrent(views, model, now) && Current(view, model, now) ==> AllCurrent(views[provider := view], model, now)
  {
  }

  type Cursors = map<(seq<string>, ModelName), nat>

  /** The provider picked from is the one whose turn it is among those marked, and the
      cursor of the providers and the model is behind it. */
  ghost predicate TakesTurn(mask: seq<bool>, order: seq<string>, model: ModelName, before: Cursors, after: Cursors, provider: string)
    requires |mask| == |order|
  {
    var turn := Turn(mask, Cursor(before, order, model));
    turn < |order| && provider == order[turn] && after == before[(order, model) := turn + 1]
  }

  /** Taking turns over several providers: the turn goes round those that have a top
      candidate, where the candidates are punctual or the shards just built. */
  ghost predicate TurnOver(known: Known, order: seq<string>, request: Request, now: Time, exact: bool, before: Cursors, after: Cursors,
                           r: Outcome) {
    var pool := Candidates(known, Members(order), request);
    r.Picked? && (exact || AllPunctual(pool, request.model)) ==>
      TakesTurn(TopProviders(pool, request.model, now, order), order, request.model, before, after, r.auth.provider)
  }

  /** What the shards of one model show, by provider. */
  type States = map<string, ShardState>

  function ViewsOf(states: States, asked: set<string>): map<string, Entries> {
    map p | p in states && p in asked :: states[p].entries
  }

  lemma SameViews(views: map<string, Entries>, states: States, asked: set<string>)
    requires views.Keys == states.Keys * asked && forall p :: p in views ==> views[p] == states[p].entries
    ensures views == ViewsOf(states, asked)
  {
    var all := ViewsOf(states, asked);
    assert forall p :: p in views <==> p in all;
  }

  /** Over what the asked shards show, a pick is at the best priority that has a choice: from
      the provider in turn among those that offer one, or from the first of them. A refusal
      means that there is no choice at all. */
  ghost predicate Chooses(states: States, order: seq<string>, model: ModelName, strategy: Strategy, allowed: string -> bool,
                          before: Cursors, after: Cursors, r: Outcome)
  {
    var views := ViewsOf(states, Members(order));
    && IsBestOver(views, Members(order), allowed, if r.Picked? then Some(r.auth.priority) else None)
    && (r.Picked? ==> r.auth.provider in order && r.auth.provider in views
                      && IsPick(views[r.auth.provider], r.auth.priority, false, strategy, allowed, Some(r.auth)))
    && (r.Picked? && strategy == FillFirst ==>
          exists i :: 0 <= i < |order| && order[i] == r.auth.provider
                      && forall j :: 0 <= j < i ==> !Offers(views, order, r.auth.priority, allowed)[j])
    && (r.Picked? && strategy == RoundRobin ==>
          TakesTurn(Offers(views, order, r.auth.priority, allowed), order, model, before, after, r.auth.provider))
    && (!r.Picked? || strategy == FillFirst ==> before == after)
  }

  /** A lookup in one provider's shard leaves every entry as it is, and moves at most the
      cursor of the view picked from, behind the entry whose turn it was. */
  ghost predicate Spins(before: States, after: States, provider: string, preferWebsocket: bool, strategy: Strategy,
                        allowed: string -> bool, picked: Option<Auth>)
  {
    && provider in before && provider in after
    && after == before[provider := before[provider].(cursors := after[provider].cursors)]
    && RotatesReady(before[provider].entries, preferWebsocket, strategy, allowed,
                    before[provider].cursors, after[provider].cursors, picked)
  }

  /** The same of a pick's outcome: filling first, and a refusal, move nothing. */
  ghost predicate Turned(before: States, after: States, preferWebsocket: bool, strategy: Strategy, allowed: string -> bool, r: Outcome) {
    if r.Picked? && strategy == RoundRobin then Spins(before, after, r.auth.provider, preferWebsocket, strategy, allowed, Some(r.auth))
    else after == before
  }

  lemma NothingSpins(before: States, after: States, provider: string, preferWebsocket: bool, strategy: Strategy,
                     allowed: string -> bool, picked: Option<Auth>)
    requires Spins(before, after, provider, preferWebsocket, strategy, allowed, picked)
    requires picked.None? || strategy == FillFirst
    ensures after == before
  {
  }

  lemma NoTurn(states: States, preferWebsocket: bool, strategy: Strategy, allowed: string -> bool, r: Outcome)
    requires !r.Picked?
    ensures Turned(states, states, preferWebsocket, strategy, allowed, r)
  {
  }

  lemma ChoseFirst(states: States, order: seq<string>, model: ModelName, allowed: string -> bool, priority: int, turn: nat,
                   cursors: Cursors, picked: Auth)
    requires var views := ViewsOf(states, Members(order));
             && IsBestOver(views, Members(order), allowed, Some(priority))
             && turn < |order| && order[turn] in views
             && IsPick(views[order[turn]], priority, false, FillFirst, allowed, Some(picked))
             && (forall j :: 0 <= j < turn ==> !Offers(views, order, priority, allowed)[j])
    requires picked.provider == order[turn]
    ensures Chooses(states, order, model, FillFirst, allowed, cursors, cursors, Picked(picked))
  {
    hide Offers, IsBestOver;
  }

  lemma ChoseInTurn(states: States, order: seq<string>, model: ModelName, allowed: string -> bool, priority: int, turn: nat,
                    before: Cursors, after: Cursors, picked: Auth)
    requires var views := ViewsOf(states, Members(order));
             && IsBestOver(views, Members(order), allowed, Some(priority))
             && turn < |order| && order[turn] in views
             && IsPick(views[order[turn]], priority, false, RoundRobin, allowed, Some(picked))
             && turn == Turn(Offers(views, order, priority, allowed), Cursor(before, order, model))
    requires picked.provider == order[turn] && after == before[(order, model) := turn + 1]
    ensures Chooses(states, order, model, RoundRobin, allowed, before, after, Picked(picked))
  {
    hide Offers, IsBestOver;
  }

  lemma ChoseNobody(states: States, order: seq<string>, model: ModelName, strategy: Strategy, allowed: string -> bool,
                    cursors: Cursors, r: Outcome)
    requires !r.Picked? && IsBestOver(ViewsOf(states, Members(order)), Members(order), allowed, None)
    ensures Chooses(states, order, model, strategy, allowed, cursors, cursors, r)
  {
  }

  lemma ChoseFromNobody(states: States, order: seq<string>, model: ModelName, strategy: Strategy, allowed: string -> bool,
                        cursors: Cursors)
    requires order == []
    ensures Chooses(states, order, model, strategy, allowed, cursors, cursors, NoProvider)
  {
  }

  lemma ChosenTurn(states: States, order: seq<string>, model: ModelName, allowed: string -> bool, before: Cursors, after: Cursors,
                   r: Outcome)
    ensures r.Picked? && Chooses(states, order, model, RoundRobin, allowed, before, after, r) ==>
              TakesTurn(Offers(ViewsOf(states, Members(order)), order, r.auth.priority, allowed), order, model, before, after,
                        r.auth.provider)
  {
  }

  /** The same of one provider's shard, which may prefer websockets. */
  ghost predicate ChoosesIn(states: States, provider: string, preferWebsocket: bool, strategy: Strategy, allowed: string -> bool,
                            r: Outcome)
  {
    provider in states
    && IsReadyPick(states[provider].entries, preferWebsocket, strategy, allowed, if r.Picked? then Some(r.auth) else None)
  }

  lemma ChoseIn(states: States, view: Entries, provider: string, preferWebsocket: bool, strategy: Strategy, allowed: string -> bool,
                picked: Option<Auth>)
    requires provider in states && states[provider].entries == view
    requires IsReadyPick(view, preferWebsocket, strategy, allowed, picked)
    ensures picked.Some? ==> ChoosesIn(states, provider, preferWebsocket, strategy, allowed, Picked(picked.value))
    ensures picked.None? ==> forall r: Outcome :: !r.Picked? ==> ChoosesIn(states, provider, preferWebsocket, strategy, allowed, r)
  {
  }

  lemma PickIsHere(known: Known, asked: set<string>, model: ModelName, now: Time, views: map<string, Entries>, provider: string,
                   priority: int, preferWebsocket: bool, strategy: Strategy, allowed: string -> bool, picked: Auth)
    requires Covers(views, known, asked, model, now) && provider in views
    requires IsPick(views[provider], priority, preferWebsocket, strategy, allowed, Some(picked))
    ensures picked.provider == provider && picked.priority == priority
  {
    InView(views, known, asked, model, now, provider, picked.id);
  }

  lemma FirstTurnsNothing(states: States, preferWebsocket: bool, allowed: string -> bool, r: Outcome)
    ensures Turned(states, states, preferWebsocket, FillFirst, allowed, r)
  {
  }

  lemma ReadyTurnsHere(view: Entries, known: Known, model: ModelName, now: Time, before: States, after: States, provider: string,
                       preferWebsocket: bool, strategy: Strategy, allowed: string -> bool, picked: Auth)
    requires Covers(map[provider := view], known, {provider}, model, now)
    requires IsReadyPick(view, preferWebsocket, strategy, allowed, Some(picked))
    requires Spins(before, after, provider, preferWebsocket, strategy, allowed, Some(picked))
    ensures Turned(before, after, preferWebsocket, strategy, allowed, Picked(picked)) && picked.provider == provider
  {
    hide Covers, IsPick, Spins, Turned;
    var p :| IsHighest(view, preferWebsocket, allowed, p) && IsPick(view, p, preferWebsocket, strategy, allowed, Some(picked));
    PickIsHere(known, {provider}, model, now, map[provider := view], provider, p, preferWebsocket, strategy, allowed, picked);
    TurnsHere(before, after, provider, preferWebsocket, strategy, allowed, picked);
  }

  lemma TurnsHere(before: States, after: States, provider: string, preferWebsocket: bool, strategy: Strategy, allowed: string -> bool,
                  picked: Auth)
    requires Spins(before, after, provider, preferWebsocket, strategy, allowed, Some(picked)) && picked.provider == provider
    ensures Turned(before, after, preferWebsocket, strategy, allowed, Picked(picked))
  {
  }

  class AuthScheduler {
    var strategy: Strategy
    var providers: map<string, ProviderScheduler>
    var authProviders: map<string, string>
    var mixedCursors: Cursors
    ghost var known: Known  // the last snapshot of each auth, disabled ones included
    ghost var clock: Time   // the instant of the last operation
    ghost var Repr: set<object>

    ghost predicate Owning()
      reads this`providers, this`Repr, Repr - {this}
    {
      && this in Repr
      && (forall p :: p in providers ==>
            providers[p] in Repr && providers[p] in providers[p].Repr && providers[p].Repr <= Repr && this !in providers[p].Repr)
      && (forall p, q :: p in providers && q in providers && p != q ==> providers[p].Repr !! providers[q].Repr)
    }

    ghost predicate Kept(known: Known, clock: Time, strategy: Strategy, providers: map<string, ProviderScheduler>)
      reads this
    {
      this.known == known && this.clock == clock && this.strategy == strategy && this.providers == providers
    }

    /** Every provider holds its part of `auths`; `authProviders` names it. */
    ghost predicate Indexes(auths: Known)
      reads this`providers, this`authProviders, this`clock, this`Repr, Repr - {this}
    {
      && Owning()
      && (forall p :: p in providers ==> Holds(providers[p], p, OfProvider(auths, p), clock))
      && authProviders == ProviderNames(auths)
      && (forall id :: id in authProviders ==> authProviders[id] in providers)
    }

    ghost predicate Valid()
      reads this, Repr
      ensures Valid() ==> this in Repr
    {
      Filed(known) && Indexes(known)
    }

    /** No shard is built yet. */
    ghost predicate Bare()
      reads this`providers, this`Repr, Repr - {this}
    {
      Owning() && forall p :: p in providers ==> providers[p].modelShards == map[]
    }

    /** No shard of the model is built yet, for no provider but those in `done`. */
    ghost predicate Unbuilt(model: ModelName, done: set<string>)
      reads this`providers, this`Repr, Repr - {this}
    {
      Owning() && forall p :: p in providers && p !in done ==> model !in providers[p].modelShards
    }

    /** What the shards of a model show once they are looked up at `now`. */
    ghost function Prepared(model: ModelName, now: Time): States
      reads this`providers, this`Repr, Repr - {this}
    {
      if Owning() then map p | p in providers :: providers[p].Prepared(model, now) else map[]
    }

    /** `states` says so of every provider but one. */
    ghost predicate PreparedBut(states: States, model: ModelName, now: Time, but: Option<string>)
      reads this`providers, this`Repr, Repr - {this}
    {
      && Owning() && states.Keys == providers.Keys
      && forall p :: p in providers && but != Some(p) ==> states[p] == providers[p].Prepared(model, now)
    }

    lemma PreparedMeans(model: ModelName, now: Time)
      requires Owning()
      ensures PreparedBut(Prepared(model, now), model, now, None)
    {
    }

    /** What a lookup in one provider's shard does to them all. */
    lemma SpunAt(states: States, model: ModelName, now: Time, provider: string, preferWebsocket: bool, strategy: Strategy,
                 allowed: string -> bool, picked: Option<Auth>)
      requires PreparedBut(states, model, now, Some(provider)) && provider in providers
      requires var state := providers[provider].Prepared(model, now);
               && state.entries == states[provider].entries
               && RotatesReady(state.entries, preferWebsocket, strategy, allowed, states[provider].cursors, state.cursors, picked)
      ensures Spins(states, Prepared(model, now), provider, preferWebsocket, strategy, allowed, picked)
    {
      hide ProviderScheduler.Prepared, RotatesReady;
      PreparedOnly(states, model, now, provider);
    }

    lemma PreparedOnly(states: States, model: ModelName, now: Time, provider: string)
      requires PreparedBut(states, model, now, Some(provider)) && provider in providers
      ensures Prepared(model, now) == states[provider := providers[provider].Prepared(model, now)]
      ensures states[provider] == providers[provider].Prepared(model, now) ==> Prepared(model, now) == states
    {
      var moved := states[provider := providers[provider].Prepared(model, now)];
      assert forall p :: p in moved <==> p in providers;
      assert forall p :: p in providers ==> moved[p] == Prepared(model, now)[p];
    }

    constructor (strategy: Strategy)
      ensures Valid() && fresh(Repr)
      ensures this.strategy == strategy && known == map[] && clock == 0
    {
      this.strategy := strategy;
      providers, authProviders, mixedCursors := map[], map[], map[];
      known, clock := map[], 0;
      Repr := {this};
    }

    ghost method Advance(now: Time)
      requires Valid() && clock <= now
      modifies this`clock
      ensures Valid() && clock == now
    {
      forall p | p in providers ensures Holds(providers[p], p, OfProvider(known, p), now) {
        providers[p].Later(clock, now);
      }
      hide Holds;
      clock := now;
    }

    method SetSelector(strategy: Strategy)
      requires Valid()
      modifies this`strategy, this`mixedCursors
      ensures Valid() && this.strategy == strategy && mixedCursors == map[]
    {
      this.strategy := strategy;
      mixedCursors := map[];
    }

    /** ensureProviderLocked. */
    method EnsureProvider(provider: string)
      requires Owning()
      modifies this`providers, this`Repr
      ensures Owning() && fresh(Repr - old(Repr))
      ensures providers.Keys == old(providers).Keys + {provider}
      ensures forall p :: p in old(providers) ==> providers[p] == old(providers)[p]
      ensures provider !in old(providers) ==> Holds(providers[provider], provider, map[], clock)
      ensures provider !in old(providers) ==> providers[provider].modelShards == map[]
    {
      if provider in providers {
        return;
      }
      var state := new ProviderScheduler(provider);
      state.Later(0, clock);
      assert Holds(state, provider, map[], clock);
      hide Holds;
      providers := providers[provider := state];
      Repr := Repr + state.Repr;
    }

    /** An unknown provider has no auth. */
    lemma Absent(provider: string)
      requires Indexes(known) && provider !in providers
      ensures OfProvider(known, provider) == map[]
    {
      forall id | id in known && Enabled(known[id]) ensures known[id].auth.provider != provider {
        assert id in authProviders;
      }
    }

    method RemoveAt(provider: string, id: string, ghost auths: Known)
      requires Owning() && provider in providers && Holds(providers[provider], provider, auths, clock)
      modifies providers[provider].Repr, this`Repr
      ensures Owning() && fresh(Repr - old(Repr))
      ensures Holds(providers[provider], provider, auths - {id}, clock)
      ensures providers[provider].modelShards == old(providers[provider].modelShards)
    {
      providers[provider].RemoveAuth(id, clock);
      Repr := Repr + providers[provider].Repr;
    }

    method UpsertAt(provider: string, meta: Meta, now: Time, ghost auths: Known)
      requires Owning() && provider in providers && Holds(providers[provider], provider, auths, now) && clock == now
      modifies providers[provider].Repr, this`Repr
      ensures Owning() && fresh(Repr - old(Repr))
      ensures Holds(providers[provider], provider, auths[meta.auth.id := meta], now)
      ensures providers[provider].modelShards == old(providers[provider].modelShards)
    {
      providers[provider].UpsertAuth(meta, now);
      Repr := Repr + providers[provider].Repr;
    }

    /** The auth leaves the shards of its provider. */
    method Drop(id: string)
      requires Indexes(known) && id in authProviders
      modifies Repr
      ensures Owning() && fresh(Repr - old(Repr)) && (old(Bare()) ==> Bare())
      ensures forall p :: p in providers ==> Holds(providers[p], p, OfProvider(known - {id}, p), clock)
      ensures providers == old(providers) && authProviders == old(authProviders)
      ensures known == old(known) && clock == old(clock) && strategy == old(strategy)
    {
      hide Holds, OfProvider, ProviderNames;
      WithoutFiled(known, id);
      RemoveAt(authProviders[id], id, OfProvider(known, authProviders[id]));
    }

    /** removeAuthLocked. */
    method RemoveAuthLocked(id: string)
      requires Filed(known) && Indexes(known)
      modifies Repr
      ensures Indexes(known - {id}) && fresh(Repr - old(Repr)) && (old(Bare()) ==> Bare())
      ensures known == old(known) && clock == old(clock) && strategy == old(strategy)
    {
      hide Holds, OfProvider, ProviderNames;
      WithoutFiled(known, id);
      if id !in authProviders {
        return;
      }
      Drop(id);
      authProviders := authProviders - {id};
    }

    /** No provider but `provider` holds auth `id` any more. */
    ghost predicate Cleared(id: string, provider: string)
      reads this, Repr
    {
      && Owning()
      && forall p :: p in providers ==>
           Holds(providers[p], p, OfProvider(if p == provider then known else known - {id}, p), clock)
    }

    method LeaveOtherProvider(id: string, provider: string)
      requires Indexes(known)
      modifies Repr
      ensures Cleared(id, provider) && fresh(Repr - old(Repr)) && (old(Bare()) ==> Bare())
      ensures providers == old(providers) && authProviders == old(authProviders)
      ensures known == old(known) && clock == old(clock) && strategy == old(strategy)
    {
      hide Holds, OfProvider, ProviderNames;
      WithoutFiled(known, id);
      if id in authProviders && authProviders[id] != provider {
        Drop(id);
      }
    }

    /** A provider that is new here has no auth yet. */
    method EnsureCleared(id: string, provider: string)
      requires Cleared(id, provider) && (provider !in providers ==> OfProvider(known, provider) == map[])
      modifies this`providers, this`Repr
      ensures Cleared(id, provider) && fresh(Repr - old(Repr)) && (old(Bare()) ==> Bare())
      ensures providers.Keys == old(providers).Keys + {provider}
    {
      hide Holds, OfProvider;
      EnsureProvider(provider);
    }

    method EnterProvider(meta: Meta, now: Time)
      requires Cleared(meta.auth.id, meta.auth.provider) && clock == now && Enabled(meta)
      requires meta.auth.provider !in providers ==> OfProvider(known, meta.auth.provider) == map[]
      modifies Repr
      ensures Owning() && fresh(Repr - old(Repr)) && (old(Bare()) ==> Bare())
      ensures providers.Keys == old(providers).Keys + {meta.auth.provider}
      ensures forall p :: p in providers ==> Holds(providers[p], p, OfProvider(known[meta.auth.id := meta], p), clock)
      ensures authProviders == old(authProviders) && known == old(known) && clock == old(clock) && strategy == old(strategy)
    {
      hide Holds, OfProvider, ProviderNames, Enabled;
      var id, provider := meta.auth.id, meta.auth.provider;
      FiledOne(known, id, meta);
      EnsureCleared(id, provider);
      UpsertAt(provider, meta, now, OfProvider(known, provider));
    }

    /** The path of upsertAuthLocked that files an enabled auth. */
    method FileAuth(meta: Meta, now: Time)
      requires Filed(known) && Indexes(known) && clock == now && Enabled(meta)
      modifies Repr
      ensures Indexes(known[meta.auth.id := meta]) && fresh(Repr - old(Repr)) && (old(Bare()) ==> Bare())
      ensures known == old(known) && clock == old(clock) && strategy == old(strategy)
    {
      hide Holds, OfProvider, Filed;
      var id, provider := meta.auth.id, meta.auth.provider;
      WithOneMore(known, id, meta);
      if provider !in providers {
        Absent(provider);
      }
      LeaveOtherProvider(id, provider);
      authProviders := authProviders[id := provider];
      EnterProvider(meta, now);
    }

    /** The path of upsertAuthLocked that unfiles an auth without provider or switched off. */
    method UnfileAuth(meta: Meta)
      requires Filed(known) && Indexes(known) && !Enabled(meta)
      modifies Repr
      ensures Indexes(known[meta.auth.id := meta]) && fresh(Repr - old(Repr)) && (old(Bare()) ==> Bare())
      ensures known == old(known) && clock == old(clock) && strategy == old(strategy)
    {
      hide Holds, OfProvider, Filed;
      WithOneMore(known, meta.auth.id, meta);
      RemoveAuthLocked(meta.auth.id);
    }

    /** upsertAuthLocked. */
    method UpsertAuthLocked(meta: Meta, now: Time)
      requires Valid() && clock == now
      modifies Repr
      ensures Valid() && fresh(Repr - old(Repr)) && (old(Bare()) ==> Bare())
      ensures known == if meta.auth.id == "" then old(known) else old(known)[meta.auth.id := meta]
      ensures clock == now && strategy == old(strategy)
    {
      hide Indexes;
      var id := meta.auth.id;
      if id == "" {
        return;
      }
      if meta.auth.provider == "" || meta.auth.disabled {
        UnfileAuth(meta);
      } else {
        FileAuth(meta, now);
      }
      known := known[id := meta];
    }

    method UpsertAuth(meta: Meta, now: Time)
      requires Valid() && clock <= now
      modifies Repr
      ensures Valid() && fresh(Repr - old(Repr))
      ensures known == if meta.auth.id == "" then old(known) else old(known)[meta.auth.id := meta]
      ensures clock == now && strategy == old(strategy)
    {
      Advance(now);
      UpsertAuthLocked(meta, now);
    }

    method RemoveAuth(id: string)
      requires Valid()
      modifies Repr
      ensures Valid() && fresh(Repr - old(Repr))
      ensures known == old(known) - {id} && clock == old(clock) && strategy == old(strategy)
    {
      RemoveAuthLocked(id);
      known := known - {id};
    }

    method Rebuild(auths: seq<Meta>, now: Time)
      requires Valid() && clock <= now
      modifies Repr
      ensures Valid() && fresh(Repr - old(Repr))
      ensures known == Latest(auths) && clock == now && strategy == old(strategy) && Bare()
    {
      providers, authProviders, mixedCursors := map[], map[], map[];
      known, clock := map[], now;
      for i := 0 to |auths|
        invariant Valid() && fresh(Repr - old(Repr))
        invariant known == Latest(auths[..i]) && clock == now && strategy == old(strategy) && Bare()
      {
        assert auths[..i + 1] == auths[..i] + [auths[i]];
        UpsertAuthLocked(auths[i], now);
      }
      assert auths[..|auths|] == auths;
    }

    // ----- picks

    method EnsureAt(provider: string, model: ModelName, now: Time, ghost auths: Known) returns (ghost view: Entries)
      requires Owning() && provider in providers && Holds(providers[provider], provider, auths, now)
      requires Canonical(model) == model
      modifies providers[provider].Repr, this`Repr
      ensures Owning() && fresh(Repr - old(Repr))
      ensures Holds(providers[provider], provider, auths, now)
      ensures providers[provider].Shows(model, now, view)
      ensures Prepared(model, now) == old(Prepared(model, now)) && view == old(providers[provider].Prepared(model, now)).entries
      ensures old(model !in providers[provider].modelShards) ==> Current(view, model, now)
    {
      hide ProviderScheduler.Valid, ProviderScheduler.Shows, UpToDate, Current, ProviderScheduler.Prepared, Prepared;
      ghost var states := Prepared(model, now);
      PreparedMeans(model, now);
      view := providers[provider].EnsureModel(model, now);
      StillHolds(providers[provider], model, now, view);
      Repr := Repr + providers[provider].Repr;
      PreparedOnly(states, model, now, provider);
    }

    /** The shards of the providers in `done` are built and hold `views`. */
    ghost predicate Shown(views: map<string, Entries>, done: set<string>, model: ModelName, now: Time)
      reads this`providers, this`Repr, Repr - {this}
    {
      && Owning()
      && views.Keys == done * providers.Keys
      && forall p :: p in views ==> providers[p].Shows(model, now, views[p])
    }

    lemma ViewsCover(views: map<string, Entries>, asked: set<string>, model: ModelName)
      requires Valid() && Shown(views, asked, model, clock)
      ensures Covers(views, known, asked, model, clock)
    {
      hide Indexes, Supporting, Metas, UpToDate, OfProvider, ProviderScheduler.Shows;
      ProvidersKnown();
      forall p | p in views ensures Metas(views[p]) == Supporting(OfProvider(known, p), model) && UpToDate(views[p], model, clock) {
        HeldAt(p, model, views[p]);
      }
    }

    lemma ProvidersKnown()
      requires Indexes(known)
      ensures forall id :: id in known && Enabled(known[id]) ==> known[id].auth.provider in providers
    {
      hide Holds, OfProvider;
      forall id | id in known && Enabled(known[id]) ensures known[id].auth.provider in providers {
        assert id in authProviders;
      }
    }

    /** A shard that is shown holds the auths of its provider that support the model. */
    lemma HeldAt(provider: string, model: ModelName, view: Entries)
      requires Indexes(known) && provider in providers && providers[provider].Shows(model, clock, view)
      ensures Metas(view) == Supporting(OfProvider(known, provider), model) && UpToDate(view, model, clock)
    {
      hide Supporting, Metas, UpToDate, OfProvider, ProviderNames;
      assert Holds(providers[provider], provider, OfProvider(known, provider), clock);
    }

    lemma ShownNothing(model: ModelName, now: Time)
      requires Valid()
      ensures Shown(map[], {}, model, now)
    {
    }

    lemma ShownWithout(views: map<string, Entries>, done: set<string>, model: ModelName, now: Time, provider: string)
      requires Shown(views, done, model, now) && provider !in providers
      ensures Shown(views, done + {provider}, model, now)
    {
    }

    lemma ShownPrepared(views: map<string, Entries>, done: set<string>, model: ModelName, now: Time)
      requires Shown(views, done, model, now)
      ensures forall p :: p in views ==> p in providers && providers[p].Prepared(model, now).entries == views[p]
      ensures forall p :: p in views ==> p in Prepared(model, now) && Prepared(model, now)[p].entries == views[p]
    {
      forall p | p in views ensures p in providers && providers[p].Prepared(model, now).entries == views[p] {
        providers[p].ShownAsItStands(model, now, views[p]);
      }
    }

    /** The provider's shard of the model is built and up to date. */
    ghost predicate Showing(provider: string, model: ModelName, now: Time)
      reads this`providers, this`Repr, Repr - {this}
    {
      Owning() && provider in providers && providers[provider].Shows(model, now, providers[provider].Prepared(model, now).entries)
    }

    lemma ShownViews(views: map<string, Entries>, done: set<string>, model: ModelName, now: Time)
      requires Shown(views, done, model, now)
      ensures views == ViewsOf(Prepared(model, now), done)
    {
      ShownPrepared(views, done, model, now);
      ShownKeys(views, done, model, now);
      SameViews(views, Prepared(model, now), done);
    }

    lemma ShownShows(views: map<string, Entries>, done: set<string>, model: ModelName, now: Time, provider: string)
      requires Shown(views, done, model, now) && provider in views
      ensures Showing(provider, model, now)
    {
      hide ProviderScheduler.Prepared, Prepared;
      ShownPrepared(views, done, model, now);
    }

    lemma ShownKeys(views: map<string, Entries>, done: set<string>, model: ModelName, now: Time)
      requires Shown(views, done, model, now)
      ensures views.Keys <= done && views.Keys == done * providers.Keys
    {
    }

    /** Build or promote the shard of one more provider. */
    method ShowOne(provider: string, model: ModelName, now: Time, ghost views: map<string, Entries>, ghost done: set<string>)
      returns (ghost view: Entries)
      requires Valid() && clock == now && Canonical(model) == model
      requires Shown(views, done, model, now) && provider in providers
      modifies Repr
      ensures Valid() && fresh(Repr - old(Repr))
      ensures Kept(old(known), now, old(strategy), old(providers)) && mixedCursors == old(mixedCursors)
      ensures Shown(views[provider := view], done + {provider}, model, now)
      ensures providers[provider].Shows(model, now, view)
      ensures provider in views ==> view == views[provider]
      ensures Prepared(model, now) == old(Prepared(model, now))
      ensures old(Unbuilt(model, done)) && provider !in done ==> Unbuilt(model, done + {provider}) && Current(view, model, now)
    {
      hide Holds, OfProvider, Filed, ProviderScheduler.Shows, Current, Prepared, ProviderScheduler.Prepared;
      ShownPrepared(views, done, model, now);
      view := EnsureAt(provider, model, now, OfProvider(known, provider));
    }

    lemma UnbuiltWithout(model: ModelName, done: set<string>, provider: string)
      requires provider !in providers
      ensures Unbuilt(model, done) ==> Unbuilt(model, done + {provider})
    {
    }

    lemma BareIsUnbuilt(model: ModelName)
      requires Bare()
      ensures Unbuilt(model, {})
    {
    }

    /** The first loop of pickMixed: build the shards and find the best priority. */
    method PrepareShards(order: seq<string>, request: Request, now: Time)
      returns (ghost views: map<string, Entries>, best: Option<int>)
      requires Valid() && clock == now && Canonical(request.model) == request.model
      requires Distinct(order)
      modifies Repr
      ensures Valid() && fresh(Repr - old(Repr))
      ensures known == old(known) && clock == now && strategy == old(strategy) && mixedCursors == old(mixedCursors)
      ensures Shown(views, Members(order), request.model, now)
      ensures IsBestOver(views, Members(order), AllowedBy(request), best)
      ensures old(Unbuilt(request.model, {})) ==> AllCurrent(views, request.model, now)
      ensures Prepared(request.model, now) == old(Prepared(request.model, now))
    {
      hide Prepared, IsBestOver, Indexes, Filed, IsHighestReady, ProviderScheduler.Shows, Shown, Distinct, Members, Unbuilt,
           Current, AllCurrent;
      ghost var exact := Unbuilt(request.model, {});
      best, views := None, map[];
      MembersEnds(order);
      NothingYet(views, AllowedBy(request));
      ShownNothing(request.model, now);
      CurrentNothing(request.model, now);
      for i := 0 to |order|
        invariant Valid() && fresh(Repr - old(Repr))
        invariant Kept(old(known), now, old(strategy), old(providers)) && mixedCursors == old(mixedCursors)
        invariant Prepared(request.model, now) == old(Prepared(request.model, now))
        invariant exact ==> Unbuilt(request.model, Members(order[..i])) && AllCurrent(views, request.model, now)
        invariant Shown(views, Members(order[..i]), request.model, now)
        invariant IsBestOver(views, Members(order[..i]), AllowedBy(request), best)
      {
        var provider := order[i];
        ghost var done := Members(order[..i]);
        MembersGrow(order, i);
        ShownKeys(views, done, request.model, now);
        if provider !in providers {
          ShownWithout(views, done, request.model, now, provider);
          UnbuiltWithout(request.model, done, provider);
          BestWithOneMore(views, done, AllowedBy(request), best, provider, None, None);
          continue;
        }
        ghost var view := ShowOne(provider, request.model, now, views, done);
        var found := providers[provider].HighestReady(request.model, false, AllowedBy(request), now, view);
        BestWithOneMore(views, done, AllowedBy(request), best, provider, Some(view), found);
        CurrentMore(views, request.model, now, provider, view);
        views := views[provider := view];
        if found.Some? && (best.None? || found.value > best.value) {
          best := found;
        }
      }
    }

    /** pickReadyAtPriorityLocked on the shard of one provider. */
    method PickFrom(provider: string, model: ModelName, priority: int, strategy: Strategy, allowed: string -> bool,
                    ghost views: map<string, Entries>, ghost done: set<string>)
      returns (picked: Option<Auth>)
      requires Valid() && Shown(views, done, model, clock) && provider in providers && provider in done
      modifies Repr
      ensures Valid() && Repr == old(Repr) && Shown(views, done, model, clock)
      ensures Kept(old(known), old(clock), old(this.strategy), old(providers)) && mixedCursors == old(mixedCursors)
      ensures provider in views && IsPick(views[provider], priority, false, strategy, allowed, picked)
      ensures Spins(old(Prepared(model, clock)), Prepared(model, clock), provider, false, strategy, allowed, picked)
    {
      hide Holds, OfProvider, Filed, ProviderScheduler.Shows, IsPick, Prepared, Spins;
      picked := PickAtProvider(provider, model, priority, strategy, allowed, OfProvider(known, provider), views[provider]);
    }

    method PickAtProvider(provider: string, model: ModelName, priority: int, strategy: Strategy, allowed: string -> bool,
                          ghost auths: Known, ghost view: Entries)
      returns (picked: Option<Auth>)
      requires Owning() && provider in providers && Holds(providers[provider], provider, auths, clock)
      requires providers[provider].Shows(model, clock, view)
      modifies providers[provider].Repr
      ensures Owning() && Holds(providers[provider], provider, auths, clock)
      ensures providers[provider].Shows(model, clock, view)
      ensures providers[provider].Repr == old(providers[provider].Repr)
      ensures IsPick(view, priority, false, strategy, allowed, picked)
      ensures Spins(old(Prepared(model, clock)), Prepared(model, clock), provider, false, strategy, allowed, picked)
    {
      hide IsPick, ProviderScheduler.Valid, UpToDate, Prepared, ProviderScheduler.Prepared, Rotates, RotatesReady, Spins;
      ghost var states := Prepared(model, clock);
      PreparedMeans(model, clock);
      providers[provider].ShownAsItStands(model, clock, view);
      picked := providers[provider].PickAt(model, false, priority, strategy, allowed, clock, view);
      RotatesAtHighest(view, false, strategy, allowed, priority, states[provider].cursors,
                       providers[provider].Prepared(model, clock).cursors, picked);
      SpunAt(states, model, clock, provider, false, strategy, allowed, picked);
    }

    /** One turn of either loop of pickMixed; a provider without a shard is passed over. */
    method PickListed(order: seq<string>, i: nat, model: ModelName, priority: int, strategy: Strategy, allowed: string -> bool,
                      ghost views: map<string, Entries>)
      returns (picked: Option<Auth>)
      requires Valid() && Shown(views, Members(order), model, clock) && i < |order|
      modifies Repr
      ensures Valid() && Repr == old(Repr) && Shown(views, Members(order), model, clock)
      ensures Kept(old(known), old(clock), old(this.strategy), old(providers)) && mixedCursors == old(mixedCursors)
      ensures Offers(views, order, priority, allowed)[i] <==> picked.Some?
      ensures picked.Some? ==>
                && order[i] in views && IsPick(views[order[i]], priority, false, strategy, allowed, picked)
                && Spins(old(Prepared(model, clock)), Prepared(model, clock), order[i], false, strategy, allowed, picked)
      ensures picked.None? || strategy == FillFirst ==> Prepared(model, clock) == old(Prepared(model, clock))
    {
      hide Indexes, Filed, Shown, IsPick, Choices, Offers, Prepared, Spins;
      ShownKeys(views, Members(order), model, clock);
      if order[i] !in providers {
        OfferKnown(views, order, priority, allowed, i, strategy, None);
        return None;
      }
      ghost var states := Prepared(model, clock);
      picked := PickFrom(order[i], model, priority, strategy, allowed, views, Members(order));
      OfferKnown(views, order, priority, allowed, i, strategy, picked);
      if picked.None? || strategy == FillFirst {
        NothingSpins(states, Prepared(model, clock), order[i], false, strategy, allowed, picked);
      }
    }

    /** The fill-first loop of pickMixed: the first listed provider with an offer. */
    method PickFillFirst(order: seq<string>, model: ModelName, priority: int, allowed: string -> bool,
                         ghost views: map<string, Entries>)
      returns (ghost turn: nat, picked: Option<Auth>)
      requires Valid() && Shown(views, Members(order), model, clock)
      modifies Repr
      ensures Valid() && Repr == old(Repr) && Kept(old(known), old(clock), old(strategy), old(providers))
      ensures Shown(views, Members(order), model, clock) && Prepared(model, clock) == old(Prepared(model, clock))
      ensures mixedCursors == old(mixedCursors)
      ensures turn <= |order|
      ensures forall j :: 0 <= j < turn ==> !Offers(views, order, priority, allowed)[j]
      ensures picked.None? <==> turn == |order|
      ensures picked.Some? ==> order[turn] in views && IsPick(views[order[turn]], priority, false, FillFirst, allowed, picked)
    {
      hide Indexes, Filed, Shown, IsPick, Choices, Offers, Prepared, Spins;
      for i := 0 to |order|
        invariant Prepared(model, clock) == old(Prepared(model, clock)) && mixedCursors == old(mixedCursors)
        invariant Valid() && Repr == old(Repr) && Kept(old(known), old(clock), old(strategy), old(providers))
        invariant Shown(views, Members(order), model, clock)
        invariant forall j :: 0 <= j < i ==> !Offers(views, order, priority, allowed)[j]
      {
        picked := PickListed(order, i, model, priority, FillFirst, allowed, views);
        if picked.Some? {
          return i, picked;
        }
      }
      return |order|, None;
    }

    /** The round-robin loop of pickMixed: the next provider in turn with an offer. */
    method PickInTurn(order: seq<string>, model: ModelName, priority: int, allowed: string -> bool,
                      ghost views: map<string, Entries>)
      returns (ghost turn: nat, picked: Option<Auth>)
      requires Valid() && Shown(views, Members(order), model, clock) && order != []
      modifies Repr
      ensures Valid() && Repr == old(Repr) && Kept(old(known), old(clock), old(strategy), old(providers))
      ensures Shown(views, Members(order), model, clock)
      ensures turn == Turn(Offers(views, order, priority, allowed), Cursor(old(mixedCursors), order, model))
      ensures picked.None? <==> turn == |order|
      ensures picked.Some? ==>
                && order[turn] in views && IsPick(views[order[turn]], priority, false, RoundRobin, allowed, picked)
                && mixedCursors == old(mixedCursors)[(order, model) := turn + 1]
                && Spins(old(Prepared(model, clock)), Prepared(model, clock), order[turn], false, RoundRobin, allowed, picked)
    {
      hide Indexes, Filed, Shown, IsPick, Choices, Offers, Prepared, Spins;
      ghost var mask := Offers(views, order, priority, allowed);
      ghost var states := Prepared(model, clock);
      turn := Turn(mask, Cursor(mixedCursors, order, model));
      var start := Modulo(Cursor(mixedCursors, order, model), |order|);
      for offset := 0 to |order|
        invariant Valid() && Repr == old(Repr) && Kept(old(known), old(clock), old(strategy), old(providers))
        invariant Shown(views, Members(order), model, clock) && mixedCursors == old(mixedCursors)
        invariant Prepared(model, clock) == states
        invariant turn == Scan(mask, start, offset)
      {
        var i := Modulo(start + offset, |order|);
        picked := PickListed(order, i, model, priority, RoundRobin, allowed, views);
        if picked.Some? {
          mixedCursors := mixedCursors[(order, model) := i + 1];
          return;
        }
      }
      picked := None;
    }

    /** The summary of one provider's shard, which is looked up once more. */
    method SummaryOf(provider: string, model: ModelName, allowed: string -> bool, now: Time,
                     ghost views: map<string, Entries>, ghost asked: set<string>)
      returns (total: nat, cooling: nat, earliest: Time)
      requires Valid() && clock == now && Canonical(model) == model
      requires Shown(views, asked, model, now) && provider in providers && provider in views && provider in asked
      modifies Repr
      ensures Valid() && fresh(Repr - old(Repr)) && Kept(old(known), old(clock), old(strategy), old(providers))
      ensures Shown(views, asked, model, now)
      ensures Prepared(model, now) == old(Prepared(model, now)) && mixedCursors == old(mixedCursors)
      ensures total == |Counted(views[provider], allowed)|
      ensures cooling == |CountedCooling(views[provider], allowed)|
      ensures IsEarliest(RetryTimes(views[provider]), CountedCooling(views[provider], allowed), earliest)
    {
      hide Prepared, Indexes, Filed, Shown, IsEarliest, Counted, CountedCooling, ProviderScheduler.Shows;
      ghost var view := ShowOne(provider, model, now, views, asked);
      assert views[provider := view] == views && asked + {provider} == asked;
      total, cooling, earliest := providers[provider].Summary(model, allowed, now, view);
    }

    /** One turn of the counting loop of mixedUnavailableErrorLocked. */
    method CountProvider(provider: string, request: Request, now: Time, ghost views: map<string, Entries>, ghost asked: set<string>,
                         ghost done: set<string>, total: nat, cooling: nat, earliest: Time)
      returns (total': nat, cooling': nat, earliest': Time)
      requires Valid() && clock == now && Canonical(request.model) == request.model
      requires Shown(views, asked, request.model, now) && provider in asked && provider !in done
      requires SummedUp(Gather(views, known, asked, request), done, total, cooling, earliest)
      modifies Repr
      ensures Valid() && fresh(Repr - old(Repr)) && Kept(old(known), old(clock), old(strategy), old(providers))
      ensures Shown(views, asked, request.model, now)
      ensures Prepared(request.model, now) == old(Prepared(request.model, now)) && mixedCursors == old(mixedCursors)
      ensures SummedUp(Gather(views, known, asked, request), done + {provider}, total', cooling', earliest')
    {
      hide Prepared, Indexes, Filed, Shown, Covers, Gather, SummedUp, IsEarliest, Counted, CountedCooling;
      ghost var auths := known;
      ViewsCover(views, asked, request.model);
      ShownKeys(views, asked, request.model, now);
      if provider !in providers {
        SummedWithoutView(views, auths, asked, request, now, done, provider, total, cooling, earliest);
        return total, cooling, earliest;
      }
      var localTotal, localCooling, localEarliest := SummaryOf(provider, request.model, AllowedBy(request), now, views, asked);
      SummedWithOneMore(views, auths, asked, request, now, done, provider, total, cooling, earliest,
                        localTotal, localCooling, localEarliest);
      total', cooling', earliest' := total + localTotal, cooling + localCooling, earliest;
      if localEarliest != 0 && (earliest == 0 || localEarliest < earliest) {
        earliest' := localEarliest;
      }
    }

    method SumUp(order: seq<string>, request: Request, now: Time, ghost views: map<string, Entries>)
      returns (total: nat, cooling: nat, earliest: Time)
      requires Valid() && clock == now && Canonical(request.model) == request.model
      requires Distinct(order)
      requires Shown(views, Members(order), request.model, now)
      modifies Repr
      ensures Valid() && fresh(Repr - old(Repr)) && Kept(old(known), old(clock), old(strategy), old(providers))
      ensures Prepared(request.model, now) == old(Prepared(request.model, now)) && mixedCursors == old(mixedCursors)
      ensures SummedUp(Gather(views, known, Members(order), request), Members(order), total, cooling, earliest)
    {
      hide Prepared, Indexes, Filed, Shown, Gather, SummedUp, Members, Distinct;
      total, cooling, earliest := 0, 0, 0;
      NothingSummed(Gather(views, known, Members(order), request));
      MembersEnds(order);
      for i := 0 to |order|
        invariant Valid() && fresh(Repr - old(Repr)) && Kept(old(known), old(clock), old(strategy), old(providers))
        invariant Shown(views, Members(order), request.model, now)
        invariant Prepared(request.model, now) == old(Prepared(request.model, now)) && mixedCursors == old(mixedCursors)
        invariant SummedUp(Gather(views, known, Members(order), request), Members(order[..i]), total, cooling, earliest)
      {
        MembersAll(order, i);
        MembersGrow(order, i);
        total, cooling, earliest :=
          CountProvider(order[i], request, now, views, Members(order), Members(order[..i]), total, cooling, earliest);
      }
    }

    /** mixedUnavailableErrorLocked: the refusal that the counts over all shards call for. */
    method MixedUnavailable(order: seq<string>, request: Request, now: Time, ghost views: map<string, Entries>)
      returns (r: Outcome)
      requires Valid() && clock == now && Canonical(request.model) == request.model
      requires Distinct(order)
      requires Shown(views, Members(order), request.model, now)
      modifies Repr
      ensures Valid() && fresh(Repr - old(Repr)) && Kept(old(known), old(clock), old(strategy), old(providers))
      ensures r.NotFound? || r.Unavailable? || r.CoolingDown?
      ensures Prepared(request.model, now) == old(Prepared(request.model, now)) && mixedCursors == old(mixedCursors)
      ensures var pool, es := Candidates(known, Members(order), request), Gather(views, known, Members(order), request);
              && (Current(es, request.model, now) && IsBestPriority(es, None) ==> IsOutcome(pool, request.model, now, r))
              && (!IsBestPriority(es, None) ==> r == Unavailable)
              && (r.NotFound? <==> pool == map[])
    {
      hide Prepared, Indexes, Filed, Shown, Gather, SummedUp, Members, Distinct, Covers, IsOutcome, Current, IsBestPriority;
      ViewsCover(views, Members(order), request.model);
      var total, cooling, earliest := SumUp(order, request, now, views);
      SummedRefusal(views, old(known), Members(order), request, now, total, cooling, earliest);
      r := Refusal(total, cooling, earliest, now);
    }

    /** pickReadyLocked on the shard of one provider. */
    method PickReadyFrom(provider: string, model: ModelName, preferWebsocket: bool, allowed: string -> bool, now: Time, ghost view: Entries)
      returns (picked: Option<Auth>)
      requires Valid() && clock == now && provider in providers && Shown(map[provider := view], {provider}, model, now)
      modifies Repr
      ensures Valid() && fresh(Repr - old(Repr)) && Kept(old(known), old(clock), old(strategy), old(providers))
      ensures Shown(map[provider := view], {provider}, model, now) && mixedCursors == old(mixedCursors)
      ensures IsReadyPick(view, preferWebsocket, strategy, allowed, picked)
      ensures Spins(old(Prepared(model, now)), Prepared(model, now), provider, preferWebsocket, strategy, allowed, picked)
    {
      hide Holds, OfProvider, Filed, ProviderScheduler.Shows, IsReadyPick, Prepared, Spins;
      picked := PickReadyAtProvider(provider, model, preferWebsocket, strategy, allowed, now, OfProvider(known, provider), view);
    }

    method PickReadyAtProvider(provider: string, model: ModelName, preferWebsocket: bool, strategy: Strategy,
                               allowed: string -> bool, now: Time, ghost auths: Known, ghost view: Entries)
      returns (picked: Option<Auth>)
      requires Owning() && provider in providers && Holds(providers[provider], provider, auths, now)
      requires providers[provider].Shows(model, now, view)
      modifies providers[provider].Repr, this`Repr
      ensures Owning() && fresh(Repr - old(Repr))
      ensures Holds(providers[provider], provider, auths, now)
      ensures providers[provider].Shows(model, now, view)
      ensures IsReadyPick(view, preferWebsocket, strategy, allowed, picked)
      ensures Spins(old(Prepared(model, now)), Prepared(model, now), provider, preferWebsocket, strategy, allowed, picked)
    {
      hide IsReadyPick, ProviderScheduler.Valid, ProviderScheduler.Shows, UpToDate, Prepared, ProviderScheduler.Prepared,
           RotatesReady, Spins;
      ghost var states := Prepared(model, now);
      PreparedMeans(model, now);
      providers[provider].ShownAsItStands(model, now, view);
      picked := providers[provider].PickReadyAt(model, preferWebsocket, strategy, allowed, now, view);
      StillHolds(providers[provider], model, now, view);
      Repr := Repr + providers[provider].Repr;
      SpunAt(states, model, now, provider, preferWebsocket, strategy, allowed, picked);
    }

    /** The shard of one provider is looked up, and asked for a pick. */
    method LookUp(provider: string, request: Request, preferWebsocket: bool, now: Time) returns (picked: Option<Auth>, ghost view: Entries)
      requires Valid() && clock == now && Canonical(request.model) == request.model && provider in providers
      modifies Repr
      ensures Valid() && fresh(Repr - old(Repr)) && Kept(old(known), old(clock), old(strategy), old(providers))
      ensures mixedCursors == old(mixedCursors) && Shown(map[provider := view], {provider}, request.model, now)
      ensures IsReadyPick(view, preferWebsocket, strategy, AllowedBy(request), picked)
      ensures provider in old(Prepared(request.model, now)) && old(Prepared(request.model, now))[provider].entries == view
      ensures Spins(old(Prepared(request.model, now)), Prepared(request.model, now), provider, preferWebsocket, strategy,
                    AllowedBy(request), picked)
      ensures old(Unbuilt(request.model, {})) ==> Current(view, request.model, now)
    {
      hide Prepared, Spins, Indexes, Filed, Shown, IsReadyPick, Unbuilt, Current;
      ShownNothing(request.model, now);
      view := ShowOne(provider, request.model, now, map[], {});
      assert map[][provider := view] == map[provider := view] && {} + {provider} == {provider};
      ShownPrepared(map[provider := view], {provider}, request.model, now);
      picked := PickReadyFrom(provider, request.model, preferWebsocket, AllowedBy(request), now, view);
      assert fresh(Repr - old(Repr));
    }

    /** The lookup in one provider that pickSingle, without a websocket preference, and the
        pinned path of pickMixed have in common. */
    method PickInProvider(provider: string, request: Request, now: Time) returns (r: Outcome)
      requires Valid() && clock == now && Canonical(request.model) == request.model && provider in providers
      modifies Repr
      ensures Valid() && fresh(Repr - old(Repr)) && Kept(old(known), old(clock), old(strategy), old(providers))
      ensures Answers(known, [provider], request, strategy, now, old(Unbuilt(request.model, {})), r)
      ensures ChoosesIn(old(Prepared(request.model, now)), provider, false, strategy, AllowedBy(request), r)
      ensures Turned(old(Prepared(request.model, now)), Prepared(request.model, now), false, strategy, AllowedBy(request), r)
      ensures mixedCursors == old(mixedCursors) && (r.Picked? ==> r.auth.provider == provider && Showing(provider, request.model, now))
    {
      hide Prepared, Spins, Turned, ChoosesIn, Showing, Indexes, Filed, Shown, Covers, Gather, IsReadyPick, Answers, IsBestPriority,
           IsOutcome, AllPunctual, Candidates, Distinct, Unbuilt, Current, AllCurrent, NoDueMissed;
      ghost var exact, states := Unbuilt(request.model, {}), Prepared(request.model, now);
      var picked;
      ghost var view;
      picked, view := LookUp(provider, request, false, now);
      ghost var views := map[provider := view];
      ViewsCover(views, {provider}, request.model);
      CurrentOne(view, request.model, now, provider);
      ChoseIn(states, view, provider, false, strategy, AllowedBy(request), picked);
      ReadyPickAnswers(view, known, provider, request, strategy, now, exact, picked);
      if picked.Some? {
        ShownShows(views, {provider}, request.model, now, provider);
        ReadyTurnsHere(view, known, request.model, now, states, Prepared(request.model, now), provider, false, strategy,
                       AllowedBy(request), picked.value);
        return Picked(picked.value);
      }
      NothingSpins(states, Prepared(request.model, now), provider, false, strategy, AllowedBy(request), picked);
      OnlyMember(provider);
      r := MixedUnavailable([provider], request, now, views);
      RefusedAnswers(known, [provider], request, strategy, now, views, exact, r);
      NoTurn(states, false, strategy, AllowedBy(request), r);
    }

    /** The lookup of pickSingle where websockets are preferred. */
    method PickPreferred(provider: string, request: Request, now: Time) returns (r: Outcome)
      requires Valid() && clock == now && Canonical(request.model) == request.model && provider in providers
      modifies Repr
      ensures Valid() && fresh(Repr - old(Repr)) && Kept(old(known), old(clock), old(strategy), old(providers))
      ensures PreferredAnswers(known, provider, request, strategy, now, old(Unbuilt(request.model, {})), r)
      ensures ChoosesIn(old(Prepared(request.model, now)), provider, true, strategy, AllowedBy(request), r)
      ensures Turned(old(Prepared(request.model, now)), Prepared(request.model, now), true, strategy, AllowedBy(request), r)
      ensures mixedCursors == old(mixedCursors) && (r.Picked? ==> r.auth.provider == provider && Showing(provider, request.model, now))
    {
      hide Prepared, Spins, Turned, ChoosesIn, Showing, Indexes, Filed, Shown, Covers, Gather, IsReadyPick, PreferredAnswers,
           IsBestPriority, IsOutcome, AllPunctual, Candidates, Distinct, Unbuilt, Current;
      ghost var exact, states := Unbuilt(request.model, {}), Prepared(request.model, now);
      var picked;
      ghost var view;
      picked, view := LookUp(provider, request, true, now);
      ghost var views := map[provider := view];
      ViewsCover(views, {provider}, request.model);
      ChoseIn(states, view, provider, true, strategy, AllowedBy(request), picked);
      ReadyPickPreferred(view, known, provider, request, strategy, now, exact, picked);
      if picked.Some? {
        ShownShows(views, {provider}, request.model, now, provider);
        ReadyTurnsHere(view, known, request.model, now, states, Prepared(request.model, now), provider, true, strategy,
                       AllowedBy(request), picked.value);
        return Picked(picked.value);
      }
      NothingSpins(states, Prepared(request.model, now), provider, true, strategy, AllowedBy(request), picked);
      OnlyMember(provider);
      r := MixedUnavailable([provider], request, now, views);
      RefusedPreferred(view, known, provider, request, strategy, now, exact, r);
      NoTurn(states, true, strategy, AllowedBy(request), r);
    }

    /** pickSingle, with or without a websocket downstream. */
    method PickSingle(provider: string, request: Request, websocket: bool, now: Time) returns (r: Outcome)
      requires Valid() && clock <= now
      modifies Repr
      ensures Valid() && fresh(Repr - old(Repr)) && known == old(known) && clock == now && strategy == old(strategy)
      ensures SingleAnswers(known, provider, request.(model := Canonical(request.model)), websocket, strategy, now,
                            old(Unbuilt(Canonical(request.model), {})), r)
      ensures var keyed := request.(model := Canonical(request.model));
              Turned(old(Prepared(keyed.model, now)), Prepared(keyed.model, now), Prefers(provider, keyed, websocket), strategy,
                     AllowedBy(keyed), r)
      ensures var keyed := request.(model := Canonical(request.model));
              if provider in old(providers) then
                && ChoosesIn(old(Prepared(keyed.model, now)), provider, Prefers(provider, keyed, websocket), strategy, AllowedBy(keyed), r)
                && (r.Picked? ==> r.auth.provider == provider && Showing(provider, keyed.model, now))
              else r == NotFound
      ensures providers == old(providers) && mixedCursors == old(mixedCursors)
    {
      hide Answers, PreferredAnswers, Indexes, Filed, Unbuilt, Prepared, Turned, Spins, ChoosesIn, Showing;
      Advance(now);
      var keyed := request.(model := Canonical(request.model));
      if provider !in providers {
        Absent(provider);
        NobodyPicked(known, provider, keyed, websocket, strategy, now);
        NoTurn(Prepared(keyed.model, now), Prefers(provider, keyed, websocket), strategy, AllowedBy(keyed), NotFound);
        return NotFound;
      }
      if websocket && provider == "codex" && request.pinned == "" {
        r := PickPreferred(provider, keyed, now);
      } else {
        r := PickInProvider(provider, keyed, now);
      }
    }

    /** Fill first or take turns at the best priority. */
    method PickAtBest(order: seq<string>, request: Request, priority: int, ghost views: map<string, Entries>, ghost exact: bool)
      returns (picked: Option<Auth>)
      requires Valid() && Shown(views, Members(order), request.model, clock) && order != []
      requires IsBestOver(views, Members(order), AllowedBy(request), Some(priority))
      requires exact ==> AllCurrent(views, request.model, clock)
      modifies Repr
      ensures Valid() && Repr == old(Repr) && Kept(old(known), old(clock), old(strategy), old(providers))
      ensures picked.Some? && Answers(known, order, request, strategy, clock, exact, Picked(picked.value))
      ensures picked.value.priority == priority
      ensures Chooses(old(Prepared(request.model, clock)), order, request.model, strategy, AllowedBy(request), old(mixedCursors),
                      mixedCursors, Picked(picked.value))
      ensures Turned(old(Prepared(request.model, clock)), Prepared(request.model, clock), false, strategy, AllowedBy(request),
                     Picked(picked.value))
      ensures Showing(picked.value.provider, request.model, clock)
    {
      hide Prepared, Spins, Turned, TakesTurn, Indexes, Filed, Shown, Showing, Covers, IsPick, IsBestOver, Offers, Answers, Members,
           AllCurrent, Chooses, ViewsOf;
      ghost var states, cursors := Prepared(request.model, clock), mixedCursors;
      ViewsCover(views, Members(order), request.model);
      ShownViews(views, Members(order), request.model, clock);
      SomeOffer(views, order, priority, AllowedBy(request));
      ghost var turn;
      if strategy == FillFirst {
        turn, picked := PickFillFirst(order, request.model, priority, AllowedBy(request), views);
        assert picked.Some?;
        FillFirstAnswers(views, known, order, request, clock, turn, priority, exact, picked.value);
        PickIsHere(known, Members(order), request.model, clock, views, order[turn], priority, false, FillFirst, AllowedBy(request),
                   picked.value);
        ChoseFirst(states, order, request.model, AllowedBy(request), priority, turn, cursors, picked.value);
        FirstTurnsNothing(states, false, AllowedBy(request), Picked(picked.value));
      } else {
        TurnFails(Offers(views, order, priority, AllowedBy(request)), Cursor(mixedCursors, order, request.model));
        turn, picked := PickInTurn(order, request.model, priority, AllowedBy(request), views);
        InTurnAnswers(views, known, order, request, clock, order[turn], priority, exact, picked.value);
        PickIsHere(known, Members(order), request.model, clock, views, order[turn], priority, false, RoundRobin, AllowedBy(request),
                   picked.value);
        ChoseInTurn(states, order, request.model, AllowedBy(request), priority, turn, cursors, mixedCursors, picked.value);
        TurnsHere(states, Prepared(request.model, clock), order[turn], false, RoundRobin, AllowedBy(request), picked.value);
      }
      ShownShows(views, Members(order), request.model, clock, picked.value.provider);
    }

    /** The unpinned path of pickMixed. */
    method PickUnpinned(order: seq<string>, request: Request, now: Time) returns (r: Outcome)
      requires Valid() && clock == now && Canonical(request.model) == request.model && Distinct(order) && order != []
      modifies Repr
      ensures Valid() && fresh(Repr - old(Repr)) && known == old(known) && clock == now && strategy == old(strategy)
      ensures Answers(known, order, request, strategy, now, old(Unbuilt(request.model, {})), r)
      ensures strategy == RoundRobin ==>
                TurnOver(known, order, request, now, old(Unbuilt(request.model, {})), old(mixedCursors), mixedCursors, r)
      ensures Chooses(old(Prepared(request.model, now)), order, request.model, strategy, AllowedBy(request), old(mixedCursors),
                      mixedCursors, r)
      ensures Turned(old(Prepared(request.model, now)), Prepared(request.model, now), false, strategy, AllowedBy(request), r)
      ensures r.Picked? ==> Showing(r.auth.provider, request.model, now)
    {
      hide Prepared, Turned, Chooses, Showing, ViewsOf, Indexes, Filed, Shown, Covers, Gather, IsBestOver, Answers, IsBestPriority,
           IsOutcome, AllPunctual, Candidates, Distinct, Members, Unbuilt, Current, AllCurrent, Offers, TakesTurn, TopProviders,
           NoDueMissed;
      ghost var exact, states, cursors := Unbuilt(request.model, {}), Prepared(request.model, now), mixedCursors;
      ghost var views;
      var best;
      views, best := PrepareShards(order, request, now);
      ViewsCover(views, Members(order), request.model);
      ShownViews(views, Members(order), request.model, now);
      if best.None? {
        BestOverAll(views, known, Members(order), request, now, None);
        r := MixedUnavailable(order, request, now, views);
        RefusedAnswers(known, order, request, strategy, now, views, exact, r);
        NoTurn(Prepared(request.model, now), false, strategy, AllowedBy(request), r);
        ChoseNobody(Prepared(request.model, now), order, request.model, strategy, AllowedBy(request), mixedCursors, r);
        return;
      }
      var picked := PickAtBest(order, request, best.value, views, exact);
      r := Picked(picked.value);
      ChosenTurn(states, order, request.model, AllowedBy(request), cursors, mixedCursors, r);
      TurnsOverTops(known, order, request, now, views, best.value, exact);
    }

    /** The provider that a pinned auth is filed under. */
    lemma PinnedHere(order: seq<string>, request: Request, provider: string)
      requires Valid() && request.pinned != ""
      requires provider == if request.pinned in authProviders then authProviders[request.pinned] else ""
      ensures provider == "" || provider !in order ==> Candidates(known, Members(order), request) == map[]
      ensures provider in order ==> Candidates(known, {provider}, request) == Candidates(known, Members(order), request)
      ensures provider != "" ==> provider in providers
    {
      hide Holds, OfProvider, Candidates, Members;
      PinnedCandidates(known, order, request, provider);
    }

    /** pickMixed. */
    method PickMixed(providers: seq<string>, request: Request, now: Time) returns (r: Outcome)
      requires Valid() && clock <= now
      modifies Repr
      ensures Valid() && fresh(Repr - old(Repr)) && known == old(known) && clock == now && strategy == old(strategy)
      ensures if Normalized(providers) == [] then r == NoProvider
              else
                var keyed := request.(model := Canonical(request.model));
                && Answers(known, Normalized(providers), keyed, strategy, now, old(Unbuilt(keyed.model, {})), r)
                && (strategy == RoundRobin && request.pinned == "" ==>
                      TurnOver(known, Normalized(providers), keyed, now, old(Unbuilt(keyed.model, {})), old(mixedCursors), mixedCursors, r))
      ensures var keyed := request.(model := Canonical(request.model));
              && Turned(old(Prepared(keyed.model, now)), Prepared(keyed.model, now), false, strategy, AllowedBy(keyed), r)
              && (r.Picked? ==> Showing(r.auth.provider, keyed.model, now))
              && if request.pinned != "" then mixedCursors == old(mixedCursors)
                 else Chooses(old(Prepared(keyed.model, now)), Normalized(providers), keyed.model, strategy, AllowedBy(keyed),
                              old(mixedCursors), mixedCursors, r)
    {
      hide Indexes, Prepared, Turned, Chooses, Showing, Answers, TurnOver, Unbuilt;
      var order := NormalizeProviderKeys(providers);
      Advance(now);
      NormalizedIsDistinct(providers);
      var keyed := request.(model := Canonical(request.model));
      if |order| == 0 {
        NoTurn(Prepared(keyed.model, now), false, strategy, AllowedBy(keyed), NoProvider);
        ChoseFromNobody(Prepared(keyed.model, now), order, keyed.model, strategy, AllowedBy(keyed), mixedCursors);
        return NoProvider;
      }
      ghost var exact := Unbuilt(keyed.model, {});
      if request.pinned == "" {
        r := PickUnpinned(order, keyed, now);
        return;
      }
      var provider := if request.pinned in authProviders then authProviders[request.pinned] else "";
      PinnedHere(order, keyed, provider);
      if provider == "" || provider !in order {
        NoCandidates(known, order, keyed, strategy, now);
        NoTurn(Prepared(keyed.model, now), false, strategy, AllowedBy(keyed), NotFound);
        return NotFound;
      }
      r := PickInProvider(provider, keyed, now);
      OneProviderAnswers(known, order, provider, keyed, strategy, now, exact, r);
    }
  }

  method NormalizeProviderKeys(providers: seq<string>) returns (order: seq<string>)
    ensures order == Normalized(providers)
  {
    order := [];
    for i := 0 to |providers|
      invariant order == Normalized(providers[..i])
    {
      assert providers[..i + 1] == providers[..i] + [providers[i]];
      if providers[i] != "" && providers[i] !in order {
        order := order + [providers[i]];
      }
    }
    assert providers[..|providers|] == providers;
  }
}
