/** Picks for one provider, scheduler and rescan side by side (pickNext and pickNextLegacy
    in sdk/cockpit/auth/conductor_selection.go). */
module SinglePicks {
  import opened Credentials
  import opened ShardIndex
  import opened Selection
  import opened Gathering
  import opened Websockets
  import opened Scheduler
  import opened SchedulerRuns

  /** What pickNext owes: for a refusal with a model, the answer of indexes just rebuilt. */
  ghost predicate NextSingle(known: Known, provider: string, request: Request, websocket: bool, strategy: Strategy, now: Time, r: Outcome) {
    SingleAnswers(known, provider, request.(model := Canonical(request.model)), websocket, strategy, now,
                  !r.Picked? && request.model != NO_MODEL, r)
  }

  lemma NeverNoProviderSingle(known: Known, provider: string, request: Request, websocket: bool, strategy: Strategy, now: Time,
                              exact: bool, r: Outcome)
    requires SingleAnswers(known, provider, request, websocket, strategy, now, exact, r)
    ensures !r.NoProvider?
  {
  }

  lemma LessExactSingle(known: Known, provider: string, request: Request, websocket: bool, strategy: Strategy, now: Time, exact: bool, r: Outcome)
    ensures SingleAnswers(known, provider, request, websocket, strategy, now, true, r) ==>
              SingleAnswers(known, provider, request, websocket, strategy, now, exact, r)
    ensures SingleAnswers(known, provider, request, websocket, strategy, now, exact, r) ==>
              SingleAnswers(known, provider, request, websocket, strategy, now, false, r)
  {
    hide IsPreferred, IsOutcome, IsMixedFillFirst, AllPunctual, Candidates, Roster, NoDueMissed, NoOfferMissed;
  }

  /** pickNext on the scheduler, the provider having an executor. */
  method PickNext(s: AuthScheduler, auths: map<string, Meta>, provider: string, request: Request, websocket: bool, now: Time)
    returns (r: Outcome)
    requires s.Valid() && s.clock <= now && s.known == auths
    modifies s.Repr
    ensures s.Valid() && fresh(s.Repr - old(s.Repr)) && s.clock == now && s.strategy == old(s.strategy) && s.known == auths
    ensures NextSingle(auths, provider, request, websocket, s.strategy, now, r)
  {
    hide SingleAnswers, AuthScheduler.Indexes, Latest, AuthScheduler.Unbuilt, AuthScheduler.Bare;
    ghost var keyed := request.(model := Canonical(request.model));
    ghost var exact := s.Unbuilt(keyed.model, {});
    r := s.PickSingle(provider, request, websocket, now);
    LessExactSingle(auths, provider, keyed, websocket, s.strategy, now, exact, r);
    NeverNoProviderSingle(auths, provider, keyed, websocket, s.strategy, now, exact, r);
    if !r.Picked? && request.model != NO_MODEL && WorthAnotherPick(r) {
      KnownIsKeyed(s);
      var list := SnapshotAuths(auths);
      s.Rebuild(list, now);
      s.BareIsUnbuilt(keyed.model);
      r := s.PickSingle(provider, request, websocket, now);
    }
    LessExactSingle(auths, provider, keyed, websocket, s.strategy, now, !r.Picked? && request.model != NO_MODEL, r);
  }

  // ----- against the rescan

  /** With the suffix of no bearing, the shard's name of the model gives the same offers. */
  lemma SamePreference(all: Pool, request: Request, strategy: Strategy, now: Time, r: Outcome)
    requires SuffixBlind(all, request.model)
    ensures IsPreferred(all, request.(model := Canonical(request.model)), strategy, now, r) <==>
            IsPreferred(all, request, strategy, now, r)
  {
    var keyed, pool := request.(model := Canonical(request.model)), Untried(all, request);
    assert Untried(all, keyed) == pool;
    SameReference(all, request.model, now, [], r);
    SameReference(pool, request.model, now, [], r);
    hide IsBlocked, NamesAlike, FreeIds, SuffixBlind;
    assert forall p :: HasSocket(all, keyed.model, now, p) <==> HasSocket(all, request.model, now, p);
    assert Offered(all, keyed, now) == Offered(all, request, now);
  }

  /** One candidate at most: no preference among candidates. */
  lemma PinnedHasNoPreference(pool: Pool, model: ModelName, now: Time, pinned: string, r: Outcome)
    requires Keyed(pool) && (forall id :: id in pool ==> id == pinned) && IsSocketFirst(pool, model, now, r)
    ensures IsFillFirst(pool, model, now, r)
  {
  }

  /** The two answers to a pick for one provider, filling first. The scheduler's pick is
      always sound and passes over nobody who is due, or whose offer is due. Where the snapshots are blind to the suffix its refusals of a model
      leave nobody out but those behind websockets that are used up, and with punctual
      snapshots the two answer alike exactly when the best priority is none of these. */
  ghost predicate SingleAgree(known: Known, provider: string, request: Request, websocket: bool, now: Time, fast: Outcome, slow: Outcome) {
    var all, pool := Roster(known, provider, request.model), Candidates(known, {provider}, request);
    && IsSound(pool, Canonical(request.model), now, fast)
    && (if Prefers(provider, request, websocket) then NoOfferMissed(all, request.(model := Canonical(request.model)), FillFirst, now, fast)
        else NoDueMissed(pool, Canonical(request.model), now, [provider], FillFirst, fast))
    && (SuffixBlind(all, request.model) ==>
          && (!fast.Picked? && request.model != NO_MODEL ==> AllHidden(all, request, Prefers(provider, request, websocket), now))
          && (AllPunctual(all, Canonical(request.model)) ==>
                && (!fast.Picked? <==> AllHidden(all, request, Prefers(provider, request, websocket), now))
                && (fast == slow <==> !(Prefers(provider, request, websocket) && UsedUp(all, request, now)))))
  }

  /** Every free, untried credential stands at a priority whose websockets are used up. */
  ghost predicate AllHidden(all: Pool, request: Request, prefers: bool, now: Time) {
    forall id :: id in FreeIds(Untried(all, request), request.model, now) ==> prefers && UsedUpAt(all, request, now, all[id].priority)
  }

  lemma SingleAgreement(known: Known, provider: string, request: Request, websocket: bool, now: Time, fast: Outcome, slow: Outcome)
    requires forall id :: id in known ==> known[id].auth.id == id
    requires NextSingle(known, provider, request, websocket, FillFirst, now, fast)
    requires var pool := Candidates(known, {provider}, request);
             if websocket && provider == CODEX then IsSocketFirst(pool, request.model, now, slow)
             else IsFillFirst(pool, request.model, now, slow)
    ensures SingleAgree(known, provider, request, websocket, now, fast, slow)
  {
    var all := Roster(known, provider, request.model);
    SameRoster(known, provider, request);
    if Prefers(provider, request, websocket) {
      WithPreference(known, provider, request, now, fast, slow);
    } else {
      if websocket && provider == CODEX {
        PinnedHasNoPreference(Untried(all, request), request.model, now, request.pinned, slow);
      }
      WithoutPreference(known, provider, request, now, fast, slow);
    }
  }

  lemma SameRoster(known: Known, provider: string, request: Request)
    requires forall id :: id in known ==> known[id].auth.id == id
    ensures var keyed := request.(model := Canonical(request.model));
            && Roster(known, provider, keyed.model) == Roster(known, provider, request.model)
            && Candidates(known, {provider}, keyed) == Candidates(known, {provider}, request)
            && Candidates(known, {provider}, request) == Untried(Roster(known, provider, request.model), request)
    ensures Keyed(Roster(known, provider, request.model)) && Keyed(Candidates(known, {provider}, request))
  {
    SuffixFreeCandidates(known, {provider}, request);
    SuffixFreeCandidates(known, {provider}, Request(request.model, {}, ""));
    UntriedCandidates(known, provider, request);
  }

  lemma WithPreference(known: Known, provider: string, request: Request, now: Time, fast: Outcome, slow: Outcome)
    requires forall id :: id in known ==> known[id].auth.id == id
    requires NextSingle(known, provider, request, true, FillFirst, now, fast) && Prefers(provider, request, true)
    requires IsSocketFirst(Candidates(known, {provider}, request), request.model, now, slow)
    ensures SingleAgree(known, provider, request, true, now, fast, slow)
  {
    hide IsBlocked, Roster, Candidates, IsPreferred, IsSocketFirst, UsedUp, UsedUpAt, SuffixBlind, AllPunctual, FreeIds, NoOfferMissed;
    var all := Roster(known, provider, request.model);
    SameRoster(known, provider, request);
    if SuffixBlind(all, request.model) {
      SamePreference(all, request, FillFirst, now, fast);
      if IsPreferred(all, request, FillFirst, now, fast) {
        RefusedThoughFree(all, request, FillFirst, now, fast);
        PreferencesAgree(all, request, now, fast, slow);
      }
    }
  }

  lemma WithoutPreference(known: Known, provider: string, request: Request, now: Time, fast: Outcome, slow: Outcome)
    requires forall id :: id in known ==> known[id].auth.id == id
    requires Answers(known, [provider], request.(model := Canonical(request.model)), FillFirst, now,
                     !fast.Picked? && request.model != NO_MODEL, fast)
    requires IsFillFirst(Candidates(known, {provider}, request), request.model, now, slow)
    ensures forall websocket :: !Prefers(provider, request, websocket) ==>
              SingleAgree(known, provider, request, websocket, now, fast, slow)
  {
    hide IsBlocked, Roster, Candidates, UsedUp, UsedUpAt, FreeIds, IsMixedFillFirst, IsFillFirst, IsOutcome, SuffixBlind, AllPunctual,
         NoDueMissed;
    var all, pool := Roster(known, provider, request.model), Candidates(known, {provider}, request);
    SameRoster(known, provider, request);
    OnlyMember(provider);
    CandidatesOf(known, provider, request);
    if SuffixBlind(all, request.model) {
      UntriedStayBlind(all, request);
      if IsMixedFillFirst(pool, Canonical(request.model), now, [provider], fast) {
        PlainAgree(pool, request.model, now, provider, fast, slow);
      }
    }
  }

  lemma CandidatesOf(known: Known, provider: string, request: Request)
    ensures var pool := Candidates(known, {provider}, request); forall id :: id in pool ==> pool[id].provider == provider
  {
  }

  lemma UntriedStayBlind(all: Pool, request: Request)
    requires SuffixBlind(all, request.model)
    ensures SuffixBlind(Untried(all, request), request.model)
    ensures AllPunctual(all, Canonical(request.model)) ==> AllPunctual(Untried(all, request), Canonical(request.model))
  {
    hide NamesAlike, Punctual;
  }

  lemma PlainAgree(pool: Pool, model: ModelName, now: Time, provider: string, fast: Outcome, slow: Outcome)
    requires Keyed(pool) && SuffixBlind(pool, model) && forall id :: id in pool ==> pool[id].provider == provider
    requires IsMixedFillFirst(pool, Canonical(model), now, [provider], fast) && IsFillFirst(pool, model, now, slow)
    ensures fast == slow && (fast.Picked? <==> FreeIds(pool, model, now) != {})
  {
    hide SuffixBlind, IsMixedFillFirst, IsBlocked;
    SameReference(pool, model, now, [provider], fast);
    SingleProvider(pool, model, now, provider, fast);
    FillFirstUnique(pool, model, now, fast, slow);
  }

  /** pickNext and pickNextLegacy, filling first, side by side. */
  method PickSingleBoth(s: AuthScheduler, auths: map<string, Meta>, provider: string, request: Request, websocket: bool, now: Time)
    returns (fast: Outcome, slow: Outcome)
    requires s.Valid() && s.clock <= now && s.strategy == FillFirst && s.known == auths && provider != ""
    modifies s.Repr
    ensures s.Valid() && fresh(s.Repr - old(s.Repr)) && s.clock == now && s.strategy == FillFirst && s.known == auths
    ensures SingleAgree(auths, provider, request, websocket, now, fast, slow)
  {
    hide NextSingle, SingleAgree, IsFillFirst, IsSocketFirst, AuthScheduler.Indexes;
    fast := PickNext(s, auths, provider, request, websocket, now);
    KnownIsKeyed(s);
    slow := PickNextLegacy(auths, provider, request, websocket, now);
    SingleAgreement(auths, provider, request, websocket, now, fast, slow);
  }
}
