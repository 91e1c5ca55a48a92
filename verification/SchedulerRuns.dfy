/** Whole runs: the incremental scheduler side by side with the rescan it replaces
    (pickNextMixed against pickNextMixedLegacy in sdk/cockpit/auth/conductor_selection.go). */
module SchedulerRuns {
  import opened Ordering
  import opened Credentials
  import opened ShardIndex
  import opened Selection
  import opened Gathering
  import opened Scheduler

  // ----- the suffix of the requested model

  /** When the block rule frees a credential for a model: never, or from an instant on. */
  function FreeFrom(auth: Auth, model: ModelName): Option<Time> {
    if auth.disabled || auth.status.Disabled? then None
    else if model == NO_MODEL then Some(if auth.unavailable then auth.nextRetryAfter else 0)
    else
      match StateFor(auth, model)
      case None => Some(0)
      case Some(state) =>
        if state.status.Disabled? then None else Some(if state.unavailable then state.nextRetryAfter else 0)
  }

  /** While it blocks: whether that is a cooldown, and when it says to look again. */
  function Grounds(auth: Auth, model: ModelName): (bool, Time) {
    var quota := if model == NO_MODEL then auth.quota
                 else if StateFor(auth, model).Some? then StateFor(auth, model).value.quota else NO_QUOTA;
    match FreeFrom(auth, model)
    case None => (false, 0)
    case Some(from) =>
      if from == 0 then (false, 0) else (quota.exceeded, if quota.nextRecoverAt == 0 then from else quota.nextRecoverAt)
  }

  /** The whole verdict of the block rule at any instant. */
  lemma VerdictExactly(auth: Auth, model: ModelName, t: Time)
    ensures IsBlocked(auth, model, t) ==
      match FreeFrom(auth, model)
      case None => Verdict(true, Off, 0)
      case Some(from) =>
        if t >= from then Verdict(false, NotBlocked, 0)
        else
          var again := Grounds(auth, model).1;
          Verdict(true, if Grounds(auth, model).0 then Cooldown else Other, if again > t then again else from)
  {
  }

  lemma BlockedUntil(auth: Auth, model: ModelName, t: Time)
    ensures IsBlocked(auth, model, t).blocked <==> FreeFrom(auth, model).None? || t < FreeFrom(auth, model).value
  {
  }

  /** Two names of a model block a credential at the same times exactly when it is free
      for them from the same instant on. */
  lemma BlockedAlike(auth: Auth, model: ModelName, other: ModelName)
    ensures (forall t: Time :: IsBlocked(auth, model, t).blocked == IsBlocked(auth, other, t).blocked)
            <==> FreeFrom(auth, model) == FreeFrom(auth, other)
  {
    forall t: Time ensures IsBlocked(auth, model, t).blocked <==> FreeFrom(auth, model).None? || t < FreeFrom(auth, model).value {
      BlockedUntil(auth, model, t);
    }
    forall t: Time ensures IsBlocked(auth, other, t).blocked <==> FreeFrom(auth, other).None? || t < FreeFrom(auth, other).value {
      BlockedUntil(auth, other, t);
    }
    if FreeFrom(auth, model) != FreeFrom(auth, other) {
      var t := if FreeFrom(auth, model).None? then FreeFrom(auth, other).value
               else if FreeFrom(auth, other).None? then FreeFrom(auth, model).value
               else if FreeFrom(auth, model).value < FreeFrom(auth, other).value then FreeFrom(auth, model).value
               else FreeFrom(auth, other).value;
      hide IsBlocked, FreeFrom;
      assert IsBlocked(auth, model, t).blocked != IsBlocked(auth, other, t).blocked;
    }
  }

  /** The same for the whole verdict, with its reason and the time to look again. */
  predicate NamesAlike(auth: Auth, model: ModelName, other: ModelName) {
    FreeFrom(auth, model) == FreeFrom(auth, other) && Grounds(auth, model) == Grounds(auth, other)
  }

  lemma VerdictsAlike(auth: Auth, model: ModelName, other: ModelName)
    ensures (forall t: Time :: IsBlocked(auth, model, t) == IsBlocked(auth, other, t)) <==> NamesAlike(auth, model, other)
  {
    BlockedAlike(auth, model, other);
    if forall t: Time :: IsBlocked(auth, model, t) == IsBlocked(auth, other, t) {
      assert forall t: Time :: IsBlocked(auth, model, t).blocked == IsBlocked(auth, other, t).blocked;
      assert IsBlocked(auth, model, 0) == IsBlocked(auth, other, 0);
    }
  }

  /** The rescan looks up the name as requested, the shards the name without suffix: for
      these candidates the two are alike. */
  predicate SuffixBlind(pool: Pool, model: ModelName) {
    forall id :: id in pool ==> NamesAlike(pool[id], model, Canonical(model))
  }

  /** So they are when no candidate keeps a state of its own for the suffixed name. */
  lemma SuffixMakesNoDifference(pool: Pool, model: ModelName)
    requires model == Canonical(model) || forall id :: id in pool ==> model !in pool[id].modelStates
    ensures SuffixBlind(pool, model)
  {
  }

  lemma SameReference(pool: Pool, model: ModelName, now: Time, order: seq<string>, r: Outcome)
    requires SuffixBlind(pool, model)
    ensures IsMixedFillFirst(pool, Canonical(model), now, order, r) <==> IsMixedFillFirst(pool, model, now, order, r)
    ensures FreeIds(pool, model, now) == FreeIds(pool, Canonical(model), now)
  {
    forall id | id in pool ensures IsBlocked(pool[id], model, now) == IsBlocked(pool[id], Canonical(model), now) {
      VerdictsAlike(pool[id], model, Canonical(model));
    }
    hide IsBlocked, NamesAlike;
    assert FreeIds(pool, model, now) == FreeIds(pool, Canonical(model), now);
    assert CoolingIds(pool, model, now) == CoolingIds(pool, Canonical(model), now);
    SameTops(pool, model, Canonical(model), now, order, r);
  }

  lemma SameTops(pool: Pool, m: ModelName, n: ModelName, now: Time, order: seq<string>, r: Outcome)
    requires forall id :: id in pool ==> IsBlocked(pool[id], m, now) == IsBlocked(pool[id], n, now)
    requires FreeIds(pool, m, now) == FreeIds(pool, n, now) && CoolingIds(pool, m, now) == CoolingIds(pool, n, now)
    ensures IsMixedFillFirst(pool, m, now, order, r) <==> IsMixedFillFirst(pool, n, now, order, r)
  {
    assert forall id :: IsTop(pool, m, now, id) <==> IsTop(pool, n, now, id);
    assert forall i :: 0 <= i <= |order| ==> (NoTopAmong(pool, m, now, order[..i]) <==> NoTopAmong(pool, n, now, order[..i]));
    assert forall t :: IsFirstReset(pool, m, now, t) <==> IsFirstReset(pool, n, now, t);
  }

  /** A state kept for the suffixed name blocks the credential in the rescan but not in
      the shard of the base name. */
  lemma SuffixMayDiffer()
    ensures
      var model := ModelName("m", "(high)");
      var state := ModelState(Error, true, 5, None, NO_QUOTA);
      var auth := Auth("a", "p", 0, false, false, Active, false, 0, NO_QUOTA, None, None, None, map[model := state]);
      IsBlocked(auth, model, 1).blocked && !IsBlocked(auth, Canonical(model), 1).blocked
  {
  }

  // ----- runs

  datatype Step =
    | Upsert(meta: Meta)
    | Remove(id: string)
    | Rebuild(metas: seq<Meta>)
    | Pick(providers: seq<string>, request: Request)

  datatype Event = Event(now: Time, step: Step)

  /** The manager's map of auths after a step, and after a run. */
  function After(known: Known, step: Step): Known {
    match step
    case Upsert(meta) => if meta.auth.id == "" then known else known[meta.auth.id := meta]
    case Remove(id) => known - {id}
    case Rebuild(metas) => Latest(metas)
    case Pick(_, _) => known
  }

  function AfterAll(events: seq<Event>): Known {
    if events == [] then map[] else After(AfterAll(events[..|events| - 1]), events[|events| - 1].step)
  }

  // ----- one pick, twice

  /** The manager's auths as a list: snapshotAuths. */
  method SnapshotAuths(auths: map<string, Meta>) returns (list: seq<Meta>)
    requires forall id :: id in auths ==> id != "" && auths[id].auth.id == id
    ensures Latest(list) == auths
  {
    list := [];
    var todo := auths.Keys;
    while todo != {}
      invariant todo <= auths.Keys && Latest(list) == auths - todo
    {
      ghost var some := Witness(todo);
      var id :| id in todo;
      LatestMore(list, auths[id]);
      assert auths - (todo - {id}) == (auths - todo)[id := auths[id]];
      list := list + [auths[id]];
      todo := todo - {id};
    }
    assert auths - {} == auths;
  }

  lemma LatestMore(list: seq<Meta>, meta: Meta)
    requires meta.auth.id != ""
    ensures Latest(list + [meta]) == Latest(list)[meta.auth.id := meta]
  {
    assert (list + [meta])[..|list|] == list;
  }

  lemma {:induction false} NormalizedTwice(order: seq<string>)
    requires Distinct(order) && "" !in order
    ensures Normalized(order) == order
  {
    if order != [] {
      var front := order[..|order| - 1];
      assert order == front + [order[|order| - 1]];
      NormalizedTwice(front);
    }
  }

  /** shouldRetrySchedulerPick. */
  predicate WorthAnotherPick(r: Outcome) {
    r.CoolingDown? || r.NotFound? || r.Unavailable?
  }

  /** What pickNextMixed owes: the answer of the indexes as they are, and for a refusal
      with a model the answer of indexes just rebuilt, whatever the candidates. */
  ghost predicate NextAnswers(known: Known, providers: seq<string>, request: Request, strategy: Strategy, now: Time, r: Outcome) {
    if Normalized(providers) == [] then r == NotFound
    else Answers(known, Normalized(providers), request.(model := Canonical(request.model)), strategy, now,
                 !r.Picked? && request.model != NO_MODEL, r)
  }

  /** pickNextMixed on the scheduler: where a pick for a model is refused the indexes are
      rebuilt from the manager's auths and asked once more. */
  method PickNextMixed(s: AuthScheduler, auths: map<string, Meta>, providers: seq<string>, request: Request, now: Time)
    returns (r: Outcome)
    requires s.Valid() && s.clock <= now && s.known == auths
    modifies s.Repr
    ensures s.Valid() && fresh(s.Repr - old(s.Repr)) && s.clock == now && s.strategy == old(s.strategy) && s.known == auths
    ensures NextAnswers(auths, providers, request, s.strategy, now, r)
  {
    hide Answers, AuthScheduler.Indexes, Normalized, Latest, TurnOver, AuthScheduler.Unbuilt, AuthScheduler.Bare;
    s.Advance(now);
    var eligible := NormalizeProviderKeys(providers);
    NormalizedIsDistinct(providers);
    NormalizedTwice(eligible);
    if |eligible| == 0 {
      return NotFound;
    }
    ghost var keyed := request.(model := Canonical(request.model));
    r := s.PickMixed(eligible, request, now);
    NeverNoProvider(auths, eligible, keyed, s.strategy, now, r);
    if !r.Picked? && request.model != NO_MODEL && WorthAnotherPick(r) {
      KnownIsKeyed(s);
      var list := SnapshotAuths(auths);
      s.Rebuild(list, now);
      s.BareIsUnbuilt(keyed.model);
      r := s.PickMixed(eligible, request, now);
    }
    LessExact(auths, eligible, keyed, s.strategy, now, !r.Picked? && request.model != NO_MODEL, r);
  }

  lemma KnownIsKeyed(s: AuthScheduler)
    requires s.Valid()
    ensures forall id :: id in s.known ==> id != "" && s.known[id].auth.id == id
  {
  }

  lemma NeverNoProvider(known: Known, order: seq<string>, request: Request, strategy: Strategy, now: Time, r: Outcome)
    ensures forall exact :: Answers(known, order, request, strategy, now, exact, r) ==> !r.NoProvider?
  {
    hide NoDueMissed, IsOutcome, IsMixedFillFirst;
  }

  lemma LessExact(known: Known, order: seq<string>, request: Request, strategy: Strategy, now: Time, exact: bool, r: Outcome)
    ensures Answers(known, order, request, strategy, now, true, r) ==> Answers(known, order, request, strategy, now, exact, r)
    ensures (forall other :: Answers(known, order, request, strategy, now, other, r) ==> Answers(known, order, request, strategy, now, false, r))
  {
    hide NoDueMissed, IsOutcome, IsMixedFillFirst, AllPunctual;
  }

  /** A pick is an untried candidate of the requested providers that is not blocked now. */
  ghost predicate IsSound(pool: Pool, model: ModelName, now: Time, r: Outcome) {
    r.Picked? ==> r.auth.id in pool && pool[r.auth.id] == r.auth && !IsBlocked(r.auth, model, now).blocked
  }

  /** The two answers to a pick. The scheduler's is sound for any snapshots and passes over
      nobody who is due. Where the candidates are blind to the suffix the two refuse together and alike, without a
      model provided the candidates are punctual. With punctual candidates they pick the
      same credential exactly when the best candidate belongs to the first listed provider
      that has a top one, so always with a single provider. */
  ghost predicate Agree(known: Known, providers: seq<string>, request: Request, now: Time, fast: Outcome, slow: Outcome) {
    var order := Normalized(providers);
    var pool := Candidates(known, Members(order), request);
    if order == [] then fast == NotFound && slow == NoProvider
    else
      && IsSound(pool, Canonical(request.model), now, fast)
      && NoDueMissed(pool, Canonical(request.model), now, order, FillFirst, fast)
      && (SuffixBlind(pool, request.model) ==>
            && IsSound(pool, request.model, now, fast)
            && (request.model != NO_MODEL || AllPunctual(pool, NO_MODEL) ==> RefuseAlike(fast, slow))
            && (AllPunctual(pool, Canonical(request.model)) ==>
                  && (fast == slow <==> BestLeads(pool, request.model, now, order))
                  && (|order| == 1 ==> fast == slow)))
  }

  predicate RefuseAlike(fast: Outcome, slow: Outcome) {
    (fast.Picked? <==> slow.Picked?) && (!fast.Picked? ==> fast == slow)
  }

  lemma AnswersAgree(known: Known, providers: seq<string>, request: Request, now: Time, fast: Outcome, slow: Outcome)
    requires (forall id :: id in known ==> known[id].auth.id == id)
    requires NextAnswers(known, providers, request, FillFirst, now, fast)
    requires if Normalized(providers) == [] then slow == NoProvider
             else IsFillFirst(Candidates(known, Members(Normalized(providers)), request), request.model, now, slow)
    ensures Agree(known, providers, request, now, fast, slow)
  {
    hide NoDueMissed;
    var order := Normalized(providers);
    var pool := Candidates(known, Members(order), request);
    if order != [] {
      SuffixFreeCandidates(known, Members(order), request);
      if SuffixBlind(pool, request.model) {
        hide SuffixBlind, Candidates;
        RefusalsAgree(pool, request.model, now, order, fast, slow);
        if AllPunctual(pool, Canonical(request.model)) {
          PicksAgree(known, pool, request.model, now, order, fast, slow);
        }
      }
    }
  }

  /** A sound pick and an exact refusal go with the rescan's. */
  lemma RefusalsAgree(pool: Pool, model: ModelName, now: Time, order: seq<string>, fast: Outcome, slow: Outcome)
    requires Keyed(pool) && SuffixBlind(pool, model) && IsSound(pool, Canonical(model), now, fast) && IsFillFirst(pool, model, now, slow)
    ensures IsSound(pool, model, now, fast)
    ensures (!fast.Picked? ==> IsMixedFillFirst(pool, Canonical(model), now, order, fast)) ==> RefuseAlike(fast, slow)
  {
    hide SuffixBlind, IsBest, IsTop, IsFirstTop;
    SameReference(pool, model, now, order, fast);
    if fast.Picked? {
      assert fast.auth.id in FreeIds(pool, Canonical(model), now);
    } else if IsMixedFillFirst(pool, Canonical(model), now, order, fast) {
      MixedAgreement(pool, model, now, order, fast, slow);
    }
  }

  lemma PicksAgree(known: Known, pool: Pool, model: ModelName, now: Time, order: seq<string>, fast: Outcome, slow: Outcome)
    requires Keyed(pool) && SuffixBlind(pool, model) && IsFillFirst(pool, model, now, slow)
    requires IsMixedFillFirst(pool, Canonical(model), now, order, fast)
    requires forall id :: id in pool ==> pool[id].provider in order
    ensures fast == slow <==> BestLeads(pool, model, now, order)
    ensures |order| == 1 ==> fast == slow
  {
    hide SuffixBlind, IsMixedFillFirst, IsFillFirst, BestLeads;
    SameReference(pool, model, now, order, fast);
    MixedAgreement(pool, model, now, order, fast, slow);
    if |order| == 1 {
      assert order == [order[0]];
      SingleProvider(pool, model, now, order[0], fast);
      FillFirstUnique(pool, model, now, fast, slow);
    }
  }

  method PickBoth(s: AuthScheduler, auths: map<string, Meta>, providers: seq<string>, request: Request, now: Time)
    returns (fast: Outcome, slow: Outcome)
    requires s.Valid() && s.clock <= now && s.strategy == FillFirst && s.known == auths
    modifies s.Repr
    ensures s.Valid() && fresh(s.Repr - old(s.Repr)) && s.clock == now && s.strategy == FillFirst && s.known == auths
    ensures Agree(auths, providers, request, now, fast, slow)
  {
    hide NextAnswers, Agree, IsFillFirst, AuthScheduler.Indexes;
    fast := PickNextMixed(s, auths, providers, request, now);
    KnownIsKeyed(s);
    slow := PickNextMixedLegacy(auths, providers, request, now);
    NormalizedIsDistinct(providers);
    assert (set p | p in providers && p != "") == Members(Normalized(providers));
    assert Members(Normalized(providers)) == {} <==> Normalized(providers) == [] by {
      if Normalized(providers) != [] {
        assert Normalized(providers)[0] in Members(Normalized(providers));
      }
    }
    AnswersAgree(auths, providers, request, now, fast, slow);
  }

  /** Any run of upserts, removals, rebuilds and picks, with time never going back: each
      pick is answered by the indexes as by the rescan of the auths of that moment. */
  method Replay(events: seq<Event>) returns (fast: seq<Outcome>, slow: seq<Outcome>)
    requires forall i, j :: 0 <= i < j < |events| ==> events[i].now <= events[j].now
    ensures |fast| == |slow| == |events|
    ensures forall i :: 0 <= i < |events| && events[i].step.Pick? ==>
              Agree(AfterAll(events[..i]), events[i].step.providers, events[i].step.request, events[i].now, fast[i], slow[i])
  {
    hide Agree, AuthScheduler.Indexes;
    var s := new AuthScheduler(FillFirst);
    var auths: map<string, Meta> := map[];
    fast, slow := [], [];
    for k := 0 to |events|
      invariant fresh(s.Repr) && s.Valid() && s.strategy == FillFirst
      invariant s.clock == if k == 0 then 0 else events[k - 1].now
      invariant s.known == auths == AfterAll(events[..k])
      invariant |fast| == |slow| == k
      invariant forall i :: 0 <= i < k && events[i].step.Pick? ==>
                  Agree(AfterAll(events[..i]), events[i].step.providers, events[i].step.request, events[i].now, fast[i], slow[i])
    {
      var now := events[k].now;
      assert events[..k + 1] == events[..k] + [events[k]];
      var r, t := NotFound, NotFound;
      match events[k].step {
        case Upsert(meta) =>
          s.UpsertAuth(meta, now);
          if meta.auth.id != "" {
            auths := auths[meta.auth.id := meta];
          }
        case Remove(id) =>
          s.Advance(now);
          s.RemoveAuth(id);
          auths := auths - {id};
        case Rebuild(metas) =>
          s.Rebuild(metas, now);
          auths := Latest(metas);
        case Pick(providers, request) =>
          r, t := PickBoth(s, auths, providers, request, now);
      }
      fast, slow := fast + [r], slow + [t];
    }
  }
}
