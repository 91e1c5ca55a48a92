/** The websocket preference of a single-provider pick (pickSingle in
    sdk/cockpit/auth/scheduler_selection.go) against that of the rescan
    (preferCodexWebsocketAuths in sdk/cockpit/auth/selector.go). */
module Websockets {
  import opened Ordering
  import opened Credentials
  import opened ShardIndex
  import opened Selection
  import opened Gathering

  /** Whom the shard of a provider lists for a model: tried credentials included. */
  function Roster(known: Known, provider: string, model: ModelName): Pool {
    Candidates(known, {provider}, Request(model, {}, ""))
  }

  function Untried(all: Pool, request: Request): Pool {
    map id | id in all && Allowed(request, id) :: all[id]
  }

  lemma UntriedCandidates(known: Known, provider: string, request: Request)
    requires forall id :: id in known ==> known[id].auth.id == id
    ensures Candidates(known, {provider}, request) == Untried(Roster(known, provider, request.model), request)
  {
  }

  /** Some free credential of the priority, tried or not, has a websocket. */
  predicate HasSocket(all: Pool, model: ModelName, now: Time, priority: int) {
    exists id :: id in FreeIds(all, model, now) && all[id].priority == priority && all[id].websockets
  }

  /** Whom a lookup that prefers websockets may pick: at a priority that has websockets
      only credentials with one. */
  function Offered(all: Pool, request: Request, now: Time): (offered: set<string>)
    ensures offered <= all.Keys
  {
    set id | id in FreeIds(all, request.model, now) && Allowed(request, id) &&
             (all[id].websockets || !HasSocket(all, request.model, now, all[id].priority))
  }

  /** The best offer; without one the refusal that the untried credentials call for. */
  ghost predicate IsPreferred(all: Pool, request: Request, strategy: Strategy, now: Time, r: Outcome) {
    var offered, pool := Offered(all, request, now), Untried(all, request);
    if offered == {} then
      if FreeIds(pool, request.model, now) == {} then IsFailure(pool, request.model, now, r) else r == Unavailable
    else
      && r.Picked? && r.auth.id in offered && r.auth == all[r.auth.id]
      && forall id :: id in offered ==>
           && all[id].priority <= r.auth.priority
           && (strategy == FillFirst && all[id].priority == r.auth.priority ==> id == r.auth.id || Before(r.auth.id, id))
  }

  /** Some due credential of the priority, tried or not, has a websocket. */
  predicate HasDueSocket(all: Pool, model: ModelName, now: Time, priority: int) {
    exists id :: id in all && IsDue(all[id], model, now) && all[id].priority == priority && all[id].websockets
  }

  /** Whom the shard offers however late it looks again at what it holds back: those who
      are due and have a websocket, or stand where no free credential has one. */
  function SurelyOffered(all: Pool, request: Request, now: Time): (offered: set<string>)
    ensures offered <= all.Keys
  {
    set id | id in all && IsDue(all[id], request.model, now) && Allowed(request, id) &&
             (all[id].websockets || !HasSocket(all, request.model, now, all[id].priority))
  }

  /** None of these is passed over, and a credential without websocket is not picked where
      a due one has a websocket. Not found says that there are no candidates at all. */
  ghost predicate NoOfferMissed(all: Pool, request: Request, strategy: Strategy, now: Time, r: Outcome) {
    && (r.NotFound? <==> Untried(all, request) == map[])
    && (r.Picked? && !r.auth.websockets ==> !HasDueSocket(all, request.model, now, r.auth.priority))
    && forall id :: id in SurelyOffered(all, request, now) ==>
         && r.Picked? && all[id].priority <= r.auth.priority
         && (strategy == FillFirst && all[id].priority == r.auth.priority ==> id == r.auth.id || Before(r.auth.id, id))
  }

  /** What a pick with the preference owes: always a free, untried credential, with no due
      offer passed over, and the reference answer where the snapshots are punctual or the
      shard has just been built. */
  ghost predicate PreferredAnswers(known: Known, provider: string, request: Request, strategy: Strategy, now: Time, exact: bool, r: Outcome) {
    var all := Roster(known, provider, request.model);
    && !r.NoProvider?
    && (r.Picked? ==> r.auth.id in all && all[r.auth.id] == r.auth && Allowed(request, r.auth.id) &&
                      !IsBlocked(r.auth, request.model, now).blocked)
    && NoOfferMissed(all, request, strategy, now, r)
    && (exact || AllPunctual(all, request.model) ==> IsPreferred(all, request, strategy, now, r))
  }

  /** The preference is for one provider and an unpinned request. */
  predicate Prefers(provider: string, request: Request, websocket: bool) {
    websocket && provider == CODEX && request.pinned == ""
  }

  /** What pickSingle owes. */
  ghost predicate SingleAnswers(known: Known, provider: string, request: Request, websocket: bool, strategy: Strategy, now: Time,
                                exact: bool, r: Outcome) {
    if Prefers(provider, request, websocket) then PreferredAnswers(known, provider, request, strategy, now, exact, r)
    else Answers(known, [provider], request, strategy, now, exact, r)
  }

  // ----- from the shard to the roster

  lemma ViewIsRoster(view: Entries, known: Known, provider: string, model: ModelName, now: Time)
    requires Covers(map[provider := view], known, {provider}, model, now)
    ensures var all := Roster(known, provider, model);
            view.Keys == all.Keys && forall id :: id in view ==> view[id].meta.auth == all[id] && view[id].meta.auth.id == id
  {
    forall id ensures id in view <==> id in Roster(known, provider, model) {
      InView(map[provider := view], known, {provider}, model, now, provider, id);
    }
    forall id | id in view ensures view[id].meta == known[id] {
      InView(map[provider := view], known, {provider}, model, now, provider, id);
    }
  }

  lemma ViewIsCurrent(view: Entries, known: Known, provider: string, model: ModelName, now: Time, exact: bool)
    requires Covers(map[provider := view], known, {provider}, model, now) && (exact ==> Current(view, model, now))
    requires exact || AllPunctual(Roster(known, provider, model), model)
    ensures Current(view, model, now)
  {
    hide Roster, Evaluate, Promote, Faithful, Punctual;
    ViewIsRoster(view, known, provider, model, now);
    if !exact {
      assert provider in map[provider := view];
      forall id | id in view ensures view[id] == Evaluate(view[id].meta, model, now) {
        PromotedIsFresh(view[id], model, now);
      }
    }
  }

  /** At one priority the choices of the shard are the offers. */
  lemma ChoicesOffered(view: Entries, all: Pool, request: Request, now: Time, priority: int)
    requires Current(view, request.model, now) && view.Keys == all.Keys && forall id :: id in view ==> view[id].meta.auth == all[id]
    ensures Choices(view, priority, true, AllowedBy(request)) == set id | id in Offered(all, request, now) && all[id].priority == priority
  {
    forall id | id in view ensures view[id].state == Ready <==> id in FreeIds(all, request.model, now) {
    }
    hide Current, IsBlocked, FreeIds;
    if SocketsAt(view, priority) != {} {
      var some := Witness(SocketsAt(view, priority));
      assert HasSocket(all, request.model, now, priority);
    } else {
      forall id | id in FreeIds(all, request.model, now) && all[id].priority == priority ensures !all[id].websockets {
        assert id !in SocketsAt(view, priority);
      }
    }
  }

  /** Whatever the clock of the shard has missed: what is due is ready, what is ready is
      free. */
  lemma ReadyBetween(view: Entries, all: Pool, model: ModelName, now: Time, id: string)
    requires UpToDate(view, model, now) && id in view && view.Keys == all.Keys && view[id].meta.auth == all[id]
    ensures IsDue(all[id], model, now) ==> view[id].state == Ready
    ensures view[id].state == Ready ==> id in FreeIds(all, model, now)
  {
    hide IsDue, IsBlocked;
    if IsDue(all[id], model, now) {
      PromotedWhenDue(view[id], model, now);
    }
    if view[id].state == Ready {
      UpToDateIsSound(view, model, now, id);
    }
  }

  lemma SurelyChosen(view: Entries, all: Pool, request: Request, now: Time, id: string)
    requires UpToDate(view, request.model, now) && view.Keys == all.Keys && forall x :: x in view ==> view[x].meta.auth == all[x]
    requires id in SurelyOffered(all, request, now)
    ensures id in Choices(view, all[id].priority, true, AllowedBy(request))
  {
    ReadyBetween(view, all, request.model, now, id);
    hide IsDue, IsBlocked, UpToDate;
    var sockets := SocketsAt(view, all[id].priority);
    if sockets != {} {
      var some := Witness(sockets);
      ReadyBetween(view, all, request.model, now, some);
      assert HasSocket(all, request.model, now, all[id].priority);
    }
    assert all[id].websockets ==> id in sockets;
  }

  /** A view that shows a credential without websocket has no websocket ready. */
  lemma NoSocketDue(view: Entries, all: Pool, request: Request, now: Time, priority: int, id: string)
    requires UpToDate(view, request.model, now) && view.Keys == all.Keys && forall x :: x in view ==> view[x].meta.auth == all[x]
    requires id in Choices(view, priority, true, AllowedBy(request)) && id in all && !all[id].websockets
    ensures !HasDueSocket(all, request.model, now, priority)
  {
    hide IsDue, IsBlocked, UpToDate;
    assert SocketsAt(view, priority) == {};
    forall other | other in all && all[other].priority == priority && all[other].websockets
      ensures !IsDue(all[other], request.model, now) {
      assert other !in SocketsAt(view, priority);
      ReadyBetween(view, all, request.model, now, other);
    }
  }

  lemma ChoiceIsListed(view: Entries, priority: int, allowed: string -> bool, id: string)
    requires id in Choices(view, priority, true, allowed)
    ensures id in view && view[id].meta.auth.priority == priority && allowed(id)
  {
  }

  lemma PickMissesNoOffer(view: Entries, all: Pool, request: Request, strategy: Strategy, now: Time, picked: Option<Auth>)
    requires UpToDate(view, request.model, now) && view.Keys == all.Keys && forall x :: x in view ==> view[x].meta.auth == all[x]
    requires IsReadyPick(view, true, strategy, AllowedBy(request), picked)
    requires forall id :: id in all ==> all[id].id == id
    ensures picked.None? ==> SurelyOffered(all, request, now) == {}
    ensures picked.Some? ==> NoOfferMissed(all, request, strategy, now, Picked(picked.value))
  {
    forall id | id in SurelyOffered(all, request, now) ensures id in Choices(view, all[id].priority, true, AllowedBy(request)) {
      SurelyChosen(view, all, request, now, id);
    }
    hide IsDue, IsBlocked, UpToDate, SurelyOffered, HasDueSocket, Choices;
    if picked.Some? {
      var p :| IsHighest(view, true, AllowedBy(request), p) && IsPick(view, p, true, strategy, AllowedBy(request), picked);
      var id := picked.value.id;
      ChoiceIsListed(view, p, AllowedBy(request), id);
      assert id in Untried(all, request);
      if !picked.value.websockets {
        NoSocketDue(view, all, request, now, p, id);
      }
    }
  }

  lemma PickIsPreferred(view: Entries, all: Pool, request: Request, strategy: Strategy, now: Time, picked: Option<Auth>)
    requires Current(view, request.model, now) && view.Keys == all.Keys && forall id :: id in view ==> view[id].meta.auth == all[id]
    requires IsReadyPick(view, true, strategy, AllowedBy(request), picked)
    requires forall id :: id in all ==> all[id].id == id
    ensures picked.None? ==> Offered(all, request, now) == {}
    ensures picked.Some? ==> IsPreferred(all, request, strategy, now, Picked(picked.value))
  {
    forall q ensures Choices(view, q, true, AllowedBy(request)) == set id | id in Offered(all, request, now) && all[id].priority == q {
      ChoicesOffered(view, all, request, now, q);
    }
    hide Choices, Current;
    var offered := Offered(all, request, now);
    assert offered <= all.Keys;
    hide Offered;
    forall id | id in offered ensures id in Choices(view, all[id].priority, true, AllowedBy(request)) {
    }
  }

  /** The shard's pick is sound, and the preferred one where the shard is current. */
  lemma ReadyPickPreferred(view: Entries, known: Known, provider: string, request: Request, strategy: Strategy, now: Time,
                           exact: bool, picked: Option<Auth>)
    requires Covers(map[provider := view], known, {provider}, request.model, now) && (exact ==> Current(view, request.model, now))
    requires IsReadyPick(view, true, strategy, AllowedBy(request), picked)
    ensures picked.Some? ==> PreferredAnswers(known, provider, request, strategy, now, exact, Picked(picked.value))
    ensures picked.None? && (exact || AllPunctual(Roster(known, provider, request.model), request.model)) ==>
              Offered(Roster(known, provider, request.model), request, now) == {}
    ensures picked.None? ==> SurelyOffered(Roster(known, provider, request.model), request, now) == {}
  {
    hide NoOfferMissed, SurelyOffered;
    var all := Roster(known, provider, request.model);
    ViewIsRoster(view, known, provider, request.model, now);
    assert provider in map[provider := view];
    PickMissesNoOffer(view, all, request, strategy, now, picked);
    if picked.Some? {
      PickIsListed(view, strategy, AllowedBy(request), picked);
      UpToDateIsSound(view, request.model, now, picked.value.id);
    }
    if exact || AllPunctual(all, request.model) {
      ViewIsCurrent(view, known, provider, request.model, now, exact);
      hide Roster;
      PickIsPreferred(view, all, request, strategy, now, picked);
    }
  }

  lemma PickIsListed(view: Entries, strategy: Strategy, allowed: string -> bool, picked: Option<Auth>)
    requires IsReadyPick(view, true, strategy, allowed, picked) && picked.Some?
    ensures var id := picked.value.id; id in view && view[id].meta.auth == picked.value && view[id].state == Ready && allowed(id)
  {
  }

  /** Without an offer the counts over the shard give the refusal. */
  lemma RefusalIsPreferred(known: Known, provider: string, request: Request, strategy: Strategy, now: Time, exact: bool, r: Outcome)
    requires forall id :: id in known ==> known[id].auth.id == id
    requires exact || AllPunctual(Roster(known, provider, request.model), request.model) ==>
      && Offered(Roster(known, provider, request.model), request, now) == {}
      && var pool := Candidates(known, {provider}, request);
         if FreeIds(pool, request.model, now) == {} then IsFailure(pool, request.model, now, r) else r == Unavailable
    requires SurelyOffered(Roster(known, provider, request.model), request, now) == {}
    requires r.NotFound? <==> Candidates(known, {provider}, request) == map[]
    requires !r.Picked? && !r.NoProvider?
    ensures PreferredAnswers(known, provider, request, strategy, now, exact, r)
  {
    UntriedCandidates(known, provider, request);
  }

  lemma RefusedPreferred(view: Entries, known: Known, provider: string, request: Request, strategy: Strategy, now: Time,
                         exact: bool, r: Outcome)
    requires Covers(map[provider := view], known, {provider}, request.model, now) && (exact ==> Current(view, request.model, now))
    requires exact || AllPunctual(Roster(known, provider, request.model), request.model) ==>
               Offered(Roster(known, provider, request.model), request, now) == {}
    requires SurelyOffered(Roster(known, provider, request.model), request, now) == {}
    requires var pool, es := Candidates(known, {provider}, request), Gather(map[provider := view], known, {provider}, request);
             && !r.Picked? && !r.NoProvider?
             && (Current(es, request.model, now) && IsBestPriority(es, None) ==> IsOutcome(pool, request.model, now, r))
             && (!IsBestPriority(es, None) ==> r == Unavailable)
             && (r.NotFound? <==> pool == map[])
    ensures PreferredAnswers(known, provider, request, strategy, now, exact, r)
  {
    hide Roster, Gather, Candidates, Offered, Current, IsBlocked, AllPunctual;
    var views := map[provider := view];
    assert forall id :: id in known ==> known[id].auth.id == id;
    if exact || AllPunctual(Roster(known, provider, request.model), request.model) {
      ViewIsCurrent(view, known, provider, request.model, now, exact);
      GatheredIsCurrent(view, known, provider, request, now);
      GatherShows(views, known, {provider}, request, now);
      NobodyIsBest(Gather(views, known, {provider}, request), Candidates(known, {provider}, request), request.model, now);
    }
    RefusalIsPreferred(known, provider, request, strategy, now, exact, r);
  }

  lemma GatheredIsCurrent(view: Entries, known: Known, provider: string, request: Request, now: Time)
    requires Current(view, request.model, now)
    ensures Current(Gather(map[provider := view], known, {provider}, request), request.model, now)
  {
  }

  lemma NobodyIsBest(es: Entries, pool: Pool, model: ModelName, now: Time)
    requires Shows(es, pool, model, now)
    ensures IsBestPriority(es, None) <==> FreeIds(pool, model, now) == {}
  {
    if IsBestPriority(es, None) {
      NothingFree(es, pool, model, now);
    } else {
      var q :| ReadyAt(es, q) != {};
      var id := Witness(ReadyAt(es, q));
      assert id in FreeIds(pool, model, now);
    }
  }

  lemma NobodyPreferred(known: Known, provider: string, request: Request, strategy: Strategy, now: Time)
    requires OfProvider(known, provider) == map[]
    ensures forall exact :: PreferredAnswers(known, provider, request, strategy, now, exact, NotFound)
  {
    NoAuthNoCandidate(known, provider, Request(request.model, {}, ""));
    assert Untried(map[], request) == map[];
  }

  lemma NobodyPicked(known: Known, provider: string, request: Request, websocket: bool, strategy: Strategy, now: Time)
    requires OfProvider(known, provider) == map[]
    ensures forall exact :: SingleAnswers(known, provider, request, websocket, strategy, now, exact, NotFound)
  {
    hide Answers, PreferredAnswers, OfProvider, Candidates;
    OnlyMember(provider);
    NoAuthNoCandidate(known, provider, request);
    NoCandidates(known, [provider], request, strategy, now);
    NobodyPreferred(known, provider, request, strategy, now);
  }

  // ----- against the rescan

  /** The websockets of the best priority are all tried. */
  ghost predicate UsedUp(all: Pool, request: Request, now: Time) {
    var pool := Untried(all, request);
    exists id :: IsTop(pool, request.model, now, id) && UsedUpAt(all, request, now, pool[id].priority)
  }

  /** The priority has websockets, of which none is left. */
  predicate UsedUpAt(all: Pool, request: Request, now: Time, priority: int) {
    && HasSocket(all, request.model, now, priority)
    && forall id :: id in FreeIds(all, request.model, now) && all[id].priority == priority && all[id].websockets ==> !Allowed(request, id)
  }

  lemma FreeUntried(all: Pool, request: Request, now: Time)
    ensures FreeIds(Untried(all, request), request.model, now) ==
              set id | id in FreeIds(all, request.model, now) && Allowed(request, id)
    ensures Offered(all, request, now) <= FreeIds(Untried(all, request), request.model, now)
  {
    hide IsBlocked;
  }

  /** Offers at a priority: its untried websockets, or everyone where it has none; nobody
      where they are used up. */
  lemma OfferedAt(all: Pool, request: Request, now: Time, priority: int)
    ensures UsedUpAt(all, request, now, priority) ==> forall id :: id in Offered(all, request, now) ==> all[id].priority != priority
    ensures !UsedUpAt(all, request, now, priority) ==>
      forall id :: id in FreeIds(Untried(all, request), request.model, now) && all[id].priority == priority ==>
        exists other :: other in Offered(all, request, now) && all[other].priority == priority
  {
    FreeUntried(all, request, now);
    hide IsBlocked;
    if !UsedUpAt(all, request, now, priority) {
      forall id | id in FreeIds(Untried(all, request), request.model, now) && all[id].priority == priority
        ensures exists other :: other in Offered(all, request, now) && all[other].priority == priority {
        if HasSocket(all, request.model, now, priority) {
          var other :| other in FreeIds(all, request.model, now) && all[other].priority == priority && all[other].websockets
                       && Allowed(request, other);
          assert other in Offered(all, request, now);
        } else {
          assert id in Offered(all, request, now);
        }
      }
    }
  }

  /** So an untried free credential may be refused: exactly when each of them stands at a
      priority whose websockets are used up. */
  lemma RefusedThoughFree(all: Pool, request: Request, strategy: Strategy, now: Time, r: Outcome)
    requires Keyed(all) && IsPreferred(all, request, strategy, now, r)
    ensures var free := FreeIds(Untried(all, request), request.model, now);
            !r.Picked? <==> forall id :: id in free ==> UsedUpAt(all, request, now, all[id].priority)
  {
    hide IsBlocked, UsedUpAt, Offered;
    FreeUntried(all, request, now);
    forall priority: int
      ensures UsedUpAt(all, request, now, priority) ==> forall id :: id in Offered(all, request, now) ==> all[id].priority != priority
      ensures !UsedUpAt(all, request, now, priority) ==>
        forall id :: id in FreeIds(Untried(all, request), request.model, now) && all[id].priority == priority ==>
          exists other :: other in Offered(all, request, now) && all[other].priority == priority
    {
      OfferedAt(all, request, now, priority);
    }
  }

  /** Filling first with the preference, scheduler and rescan answer alike exactly when the
      websockets of the best priority are not used up. If they are, the scheduler goes to
      a lower priority or refuses, although the rescan still picks at the best one. */
  lemma PreferencesAgree(all: Pool, request: Request, now: Time, r: Outcome, s: Outcome)
    requires Keyed(all) && IsPreferred(all, request, FillFirst, now, r) && IsSocketFirst(Untried(all, request), request.model, now, s)
    ensures r == s <==> !UsedUp(all, request, now)
    ensures s.Picked? && UsedUp(all, request, now) ==> !r.Picked? || r.auth.priority < s.auth.priority
  {
    hide FreeIds, UsedUpAt, Offered, IsSocketFirst;
    FreeUntried(all, request, now);
    SocketFirstIsTop(Untried(all, request), request.model, now, s);
    if s.Picked? {
      OfferedAt(all, request, now, s.auth.priority);
      if !UsedUpAt(all, request, now, s.auth.priority) {
        SameFirst(all, request, now, r, s);
      }
    }
  }

  lemma SocketFirstIsTop(pool: Pool, model: ModelName, now: Time, s: Outcome)
    requires IsSocketFirst(pool, model, now, s)
    ensures s.Picked? <==> FreeIds(pool, model, now) != {}
    ensures s.Picked? ==> s.auth.id in pool && pool[s.auth.id] == s.auth && IsTop(pool, model, now, s.auth.id)
    ensures !s.Picked? ==> IsFailure(pool, model, now, s)
  {
  }

  /** Both pick the first by ID of the same offers. */
  lemma SameFirst(all: Pool, request: Request, now: Time, r: Outcome, s: Outcome)
    requires Keyed(all) && IsPreferred(all, request, FillFirst, now, r) && IsSocketFirst(Untried(all, request), request.model, now, s)
    requires s.Picked? && !UsedUpAt(all, request, now, s.auth.priority)
    ensures r == s
  {
    hide IsBlocked;
    FreeUntried(all, request, now);
    OfferedAt(all, request, now, s.auth.priority);
    SocketFirstIsTop(Untried(all, request), request.model, now, s);
    hide FreeIds;
    var pool := Untried(all, request);
    assert s.auth.id in FreeIds(pool, request.model, now);
    assert r.Picked? && r.auth.priority == s.auth.priority;
    assert IsTop(pool, request.model, now, r.auth.id);
    if r.auth.id != s.auth.id {
      assert s.auth.id in Offered(all, request, now);
      assert pool[r.auth.id].websockets == s.auth.websockets;
      BeforeIsStrict(r.auth.id, s.auth.id);
    }
  }

  /** A websocket that was tried hides a credential without one. */
  lemma TriedSocketHides() returns (all: Pool, request: Request, free: Auth)
    ensures Keyed(all) && IsPreferred(all, request, FillFirst, 1, Unavailable)
    ensures IsSocketFirst(Untried(all, request), request.model, 1, Picked(free))
  {
    free := Auth("b", CODEX, 0, false, false, Active, false, 0, NO_QUOTA, None, None, None, map[]);
    var tried := free.(id := "a", websockets := true);
    all := map["a" := tried, "b" := free];
    request := Request(NO_MODEL, {"a"}, "");
    assert FreeIds(all, NO_MODEL, 1) == {"a", "b"};
    assert tried.websockets && all["a"] == tried;
    assert HasSocket(all, NO_MODEL, 1, 0);
    assert Untried(all, request) == map["b" := free];
    assert FreeIds(Untried(all, request), NO_MODEL, 1) == {"b"};
  }
}
