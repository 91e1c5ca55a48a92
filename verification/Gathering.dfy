/** The candidates of one request as the scheduler finds them, spread over the shards of
    several providers, read against the rescan's pool of candidates. */
module Gathering {
  import opened Ordering
  import opened Credentials
  import opened ShardIndex
  import opened Selection

  type Known = map<string, Meta>

  function Members(order: seq<string>): set<string> {
    set p | p in order
  }

  lemma MembersGrow(order: seq<string>, i: nat)
    requires i < |order| && Distinct(order)
    ensures Members(order[..i + 1]) == Members(order[..i]) + {order[i]} && order[i] !in Members(order[..i])
  {
    assert order[..i + 1] == order[..i] + [order[i]];
  }

  lemma MembersEnds(order: seq<string>)
    ensures Members(order[..0]) == {} && order[..|order|] == order
  {
  }

  /** normalizeProviderKeys on trimmed lower-case keys: the named providers in the order of
      their first mention. */
  function Normalized(providers: seq<string>): seq<string> {
    if providers == [] then []
    else
      var front, last := Normalized(providers[..|providers| - 1]), providers[|providers| - 1];
      if last == "" || last in front then front else front + [last]
  }

  lemma {:induction false} NormalizedIsDistinct(providers: seq<string>)
    ensures Distinct(Normalized(providers))
    ensures forall p :: p in Normalized(providers) <==> p in providers && p != ""
  {
    if providers != [] {
      var front, last := providers[..|providers| - 1], providers[|providers| - 1];
      NormalizedIsDistinct(front);
      assert providers == front + [last];
    }
  }

  /** The candidates do not depend on the suffix of the requested model. */
  lemma SuffixFreeCandidates(known: Known, asked: set<string>, request: Request)
    ensures Canonical(Canonical(request.model)) == Canonical(request.model)
    ensures Candidates(known, asked, request.(model := Canonical(request.model))) == Candidates(known, asked, request)
  {
  }

  /** A request pinned to an auth that no asked provider holds has no candidate; one
      pinned to an auth of an asked provider has candidates of that provider only. */
  lemma PinnedCandidates(known: Known, order: seq<string>, request: Request, provider: string)
    requires request.pinned != "" && forall id :: id in known ==> known[id].auth.id == id
    requires if request.pinned in known && Enabled(known[request.pinned])
             then provider == known[request.pinned].auth.provider else provider == ""
    ensures provider !in order || provider == "" ==> Candidates(known, Members(order), request) == map[]
    ensures provider in order ==> Candidates(known, {provider}, request) == Candidates(known, Members(order), request)
  {
  }

  lemma NoCandidates(known: Known, order: seq<string>, request: Request, strategy: Strategy, now: Time)
    requires Candidates(known, Members(order), request) == map[]
    ensures forall exact :: Answers(known, order, request, strategy, now, exact, NotFound)
  {
    var pool := Candidates(known, Members(order), request);
    assert FreeIds(pool, request.model, now) == {};
  }

  lemma NoAuthNoCandidate(known: Known, provider: string, request: Request)
    requires OfProvider(known, provider) == map[]
    ensures Candidates(known, {provider}, request) == map[]
  {
    forall id | id in known ensures !IsCandidate(known[id], {provider}, request) {
      assert id !in OfProvider(known, provider);
    }
  }

  lemma OnlyMember(provider: string)
    ensures Members([provider]) == {provider} && Distinct([provider])
  {
  }

  lemma MembersAll(order: seq<string>, i: nat)
    requires i < |order|
    ensures order[i] in Members(order)
  {
  }

  predicate Enabled(meta: Meta) {
    !meta.auth.disabled && meta.auth.provider != ""
  }

  function OfProvider(known: Known, provider: string): Known {
    map id | id in known && Enabled(known[id]) && known[id].auth.provider == provider :: known[id]
  }

  function Supporting(auths: Known, model: ModelName): Known {
    map id | id in auths && Supports(auths[id], model) :: auths[id]
  }

  function Metas(es: Entries): Known {
    map id | id in es :: es[id].meta
  }

  /** No held-back entry is past its retry time. */
  ghost predicate UpToDate(es: Entries, model: ModelName, now: Time) {
    forall id :: id in es ==> Faithful(es[id], model, now) && Promote(es[id], model, now) == es[id]
  }

  /** The verdicts are those of this very instant. */
  ghost predicate Current(es: Entries, model: ModelName, now: Time) {
    forall id :: id in es ==> es[id] == Evaluate(es[id].meta, model, now)
  }

  /** The shards of the asked providers, by provider: each holds its provider's supporting
      auths, and an asked provider without a shard has no auth at all. */
  ghost predicate Covers(views: map<string, Entries>, known: Known, asked: set<string>, model: ModelName, now: Time) {
    && views.Keys <= asked
    && (forall id :: id in known ==> known[id].auth.id == id)
    && (forall p :: p in views ==> Metas(views[p]) == Supporting(OfProvider(known, p), model) && UpToDate(views[p], model, now))
    && (forall id :: id in known && Enabled(known[id]) && known[id].auth.provider in asked ==> known[id].auth.provider in views)
  }

  /** The entry of every candidate, wherever its shard is. */
  function Gather(views: map<string, Entries>, known: Known, asked: set<string>, request: Request): Entries {
    map id | id in known && IsCandidate(known[id], asked, request) &&
             known[id].auth.provider in views && id in views[known[id].auth.provider] ::
      views[known[id].auth.provider][id]
  }

  function Among(es: Entries, providers: set<string>): Entries {
    map id | id in es && es[id].meta.auth.provider in providers :: es[id]
  }

  lemma InView(views: map<string, Entries>, known: Known, asked: set<string>, model: ModelName, now: Time, p: string, id: string)
    requires Covers(views, known, asked, model, now) && p in views
    ensures id in views[p] <==> id in known && Enabled(known[id]) && known[id].auth.provider == p && Supports(known[id], model)
    ensures id in views[p] ==> views[p][id].meta == known[id]
  {
    assert id in views[p] <==> id in Metas(views[p]);
    assert id in views[p] ==> Metas(views[p])[id] == views[p][id].meta;
  }

  /** Every candidate has an entry, and nothing else has. */
  lemma GatherIsComplete(views: map<string, Entries>, known: Known, asked: set<string>, request: Request, now: Time)
    requires Covers(views, known, asked, request.model, now)
    ensures var es, pool := Gather(views, known, asked, request), Candidates(known, asked, request);
            && es.Keys == pool.Keys
            && forall id :: id in es ==> es[id].meta == known[id] && pool[id] == es[id].meta.auth && es[id].meta.auth.id == id
    ensures UpToDate(Gather(views, known, asked, request), request.model, now)
  {
    forall id | id in known && IsCandidate(known[id], asked, request)
      ensures known[id].auth.provider in views && id in views[known[id].auth.provider]
      ensures views[known[id].auth.provider][id].meta == known[id]
    {
      InView(views, known, asked, request.model, now, known[id].auth.provider, id);
    }
  }

  lemma ContributionOf(views: map<string, Entries>, known: Known, asked: set<string>, request: Request, now: Time,
                       p: string, id: string)
    requires Covers(views, known, asked, request.model, now) && p in views
    ensures var es := Gather(views, known, asked, request);
            && (id in views[p] && Allowed(request, id) <==> id in es && es[id].meta.auth.provider == p)
            && (id in es && es[id].meta.auth.provider == p ==> es[id] == views[p][id])
  {
    InView(views, known, asked, request.model, now, p, id);
    if id in known && known[id].auth.provider in views {
      InView(views, known, asked, request.model, now, known[id].auth.provider, id);
    }
  }

  /** What one shard counts for the request is what it contributes to the whole. */
  lemma Contribution(views: map<string, Entries>, known: Known, asked: set<string>, request: Request, now: Time, p: string)
    requires Covers(views, known, asked, request.model, now) && p in views
    ensures var es := Among(Gather(views, known, asked, request), {p});
            && Counted(views[p], AllowedBy(request)) == es.Keys
            && forall id :: id in es ==> id in views[p] && es[id] == views[p][id]
  {
    var es := Among(Gather(views, known, asked, request), {p});
    forall id ensures (id in views[p] && Allowed(request, id) <==> id in es) && (id in es ==> es[id] == views[p][id]) {
      ContributionOf(views, known, asked, request, now, p, id);
    }
  }

  lemma ChoicesAmong(views: map<string, Entries>, known: Known, asked: set<string>, request: Request, now: Time, p: string, priority: int)
    requires Covers(views, known, asked, request.model, now) && p in views
    ensures Choices(views[p], priority, false, AllowedBy(request))
         == ReadyAt(Among(Gather(views, known, asked, request), {p}), priority)
  {
    Contribution(views, known, asked, request, now, p);
    var es := Among(Gather(views, known, asked, request), {p});
    forall id ensures id in Choices(views[p], priority, false, AllowedBy(request)) <==> id in ReadyAt(es, priority) {
      assert id in views[p] && Allowed(request, id) <==> id in Counted(views[p], AllowedBy(request));
    }
  }

  lemma CoolingAmong(views: map<string, Entries>, known: Known, asked: set<string>, request: Request, now: Time, p: string)
    requires Covers(views, known, asked, request.model, now) && p in views
    ensures var es := Gather(views, known, asked, request);
            && |Counted(views[p], AllowedBy(request))| == |Among(es, {p})|
            && CountedCooling(views[p], AllowedBy(request)) == CountedCooling(Among(es, {p}), Everyone())
            && forall id :: id in CountedCooling(views[p], AllowedBy(request)) ==> id in es && RetryTimes(views[p])[id] == RetryTimes(es)[id]
  {
    Contribution(views, known, asked, request, now, p);
    var es := Among(Gather(views, known, asked, request), {p});
    assert |es| == |es.Keys|;
    forall id ensures id in CountedCooling(views[p], AllowedBy(request)) <==> id in CountedCooling(es, Everyone()) {
      assert id in views[p] && Allowed(request, id) <==> id in Counted(views[p], AllowedBy(request));
    }
  }

  // ----- counting over the providers

  lemma AmongMore(es: Entries, done: set<string>, p: string)
    requires p !in done
    ensures var a, b, c := Among(es, done), Among(es, {p}), Among(es, done + {p});
            && c.Keys == a.Keys + b.Keys && a.Keys !! b.Keys
            && CountedCooling(c, Everyone()) == CountedCooling(a, Everyone()) + CountedCooling(b, Everyone())
            && CountedCooling(a, Everyone()) <= a.Keys <= es.Keys
            && CountedCooling(b, Everyone()) <= b.Keys <= es.Keys
  {
  }

  lemma CountMore(es: Entries, done: set<string>, p: string)
    requires p !in done
    ensures |Among(es, done + {p})| == |Among(es, done)| + |Among(es, {p})|
    ensures |CountedCooling(Among(es, done + {p}), Everyone())|
         == |CountedCooling(Among(es, done), Everyone())| + |CountedCooling(Among(es, {p}), Everyone())|
    ensures CountedCooling(Among(es, done + {p}), Everyone())
         == CountedCooling(Among(es, done), Everyone()) + CountedCooling(Among(es, {p}), Everyone())
    ensures CountedCooling(Among(es, done), Everyone()) <= es.Keys && CountedCooling(Among(es, {p}), Everyone()) <= es.Keys
  {
    AmongMore(es, done, p);
    hide Among, CountedCooling;
    var a, b, c := Among(es, done), Among(es, {p}), Among(es, done + {p});
    assert |a| == |a.Keys| && |b| == |b.Keys| && |c| == |c.Keys|;
  }

  /** The earlier of two earliest times, 0 standing for none. */
  function Earlier(t: Time, u: Time): Time {
    if u != 0 && (t == 0 || u < t) then u else t
  }

  lemma EarliestOfBoth(retry: map<string, Time>, S: set<string>, t: Time, R: set<string>, u: Time)
    requires S <= retry.Keys && R <= retry.Keys && IsEarliest(retry, S, t) && IsEarliest(retry, R, u)
    ensures IsEarliest(retry, S + R, Earlier(t, u))
  {
  }

  /** The counts and the earliest retry of the entries of the providers in `done`. */
  ghost predicate SummedUp(es: Entries, done: set<string>, total: nat, cooling: nat, earliest: Time) {
    && total == |Among(es, done)|
    && cooling == |CountedCooling(Among(es, done), Everyone())|
    && IsEarliest(RetryTimes(es), CountedCooling(Among(es, done), Everyone()), earliest)
  }

  lemma NothingSummed(es: Entries)
    ensures SummedUp(es, {}, 0, 0, 0)
  {
    assert Among(es, {}) == map[];
    assert CountedCooling(Among(es, {}), Everyone()) == {};
  }

  lemma SummedWithOneMore(views: map<string, Entries>, known: Known, asked: set<string>, request: Request, now: Time,
                          done: set<string>, p: string, total: nat, cooling: nat, earliest: Time,
                          localTotal: nat, localCooling: nat, localEarliest: Time)
    requires Covers(views, known, asked, request.model, now) && p in views && p !in done
    requires SummedUp(Gather(views, known, asked, request), done, total, cooling, earliest)
    requires localTotal == |Counted(views[p], AllowedBy(request))|
    requires localCooling == |CountedCooling(views[p], AllowedBy(request))|
    requires IsEarliest(RetryTimes(views[p]), CountedCooling(views[p], AllowedBy(request)), localEarliest)
    ensures SummedUp(Gather(views, known, asked, request), done + {p}, total + localTotal, cooling + localCooling,
                     Earlier(earliest, localEarliest))
  {
    var es := Gather(views, known, asked, request);
    CoolingAmong(views, known, asked, request, now, p);
    CountMore(es, done, p);
    hide Among, Gather, Covers, CountedCooling, Counted, IsEarliest;
    var c, d := CountedCooling(Among(es, done), Everyone()), CountedCooling(Among(es, {p}), Everyone());
    SameEarliest(RetryTimes(views[p]), RetryTimes(es), d, localEarliest);
    EarliestOfBoth(RetryTimes(es), c, earliest, d, localEarliest);
  }

  lemma SameEarliest(r: map<string, Time>, t: map<string, Time>, S: set<string>, e: Time)
    requires S <= r.Keys && S <= t.Keys && (forall id :: id in S ==> r[id] == t[id]) && IsEarliest(r, S, e)
    ensures IsEarliest(t, S, e)
  {
  }

  /** A provider without a view has no candidate. */
  lemma SummedWithoutView(views: map<string, Entries>, known: Known, asked: set<string>, request: Request, now: Time,
                          done: set<string>, p: string, total: nat, cooling: nat, earliest: Time)
    requires Covers(views, known, asked, request.model, now) && p !in views
    requires SummedUp(Gather(views, known, asked, request), done, total, cooling, earliest)
    ensures SummedUp(Gather(views, known, asked, request), done + {p}, total, cooling, earliest)
  {
    AmongNoView(views, known, asked, request, now, done, p);
    hide Among, Gather, Covers, CountedCooling, IsEarliest;
  }

  lemma AmongNoView(views: map<string, Entries>, known: Known, asked: set<string>, request: Request, now: Time,
                    done: set<string>, p: string)
    requires Covers(views, known, asked, request.model, now) && p !in views
    ensures var es := Gather(views, known, asked, request); Among(es, done + {p}) == Among(es, done)
  {
    hide Gather, Covers, Supporting, IsCandidate;
    NoEntryWithoutView(views, known, asked, request, now, p);
  }

  lemma NoEntryWithoutView(views: map<string, Entries>, known: Known, asked: set<string>, request: Request, now: Time, p: string)
    requires Covers(views, known, asked, request.model, now) && p !in views
    ensures var es := Gather(views, known, asked, request); forall id :: id in es ==> es[id].meta.auth.provider != p
  {
    hide Covers, Supporting, IsCandidate, UpToDate;
    GatherIsComplete(views, known, asked, request, now);
  }

  lemma EveryoneAsked(views: map<string, Entries>, known: Known, asked: set<string>, request: Request, now: Time)
    requires Covers(views, known, asked, request.model, now)
    ensures var es := Gather(views, known, asked, request); Among(es, asked) == es
  {
    hide Covers, Gather, UpToDate, Supports;
    GatherIsComplete(views, known, asked, request, now);
    var es := Gather(views, known, asked, request);
    assert forall id :: id in es ==> es[id].meta.auth.provider in asked;
  }

  lemma AllSummed(views: map<string, Entries>, known: Known, asked: set<string>, request: Request, now: Time,
                  total: nat, cooling: nat, earliest: Time)
    requires Covers(views, known, asked, request.model, now)
    requires SummedUp(Gather(views, known, asked, request), asked, total, cooling, earliest)
    ensures var es := Gather(views, known, asked, request);
            total == |es| && cooling == |CountedCooling(es, Everyone())| &&
            IsEarliest(RetryTimes(es), CountedCooling(es, Everyone()), earliest)
  {
    hide Among, Gather, Covers, CountedCooling, IsEarliest;
    EveryoneAsked(views, known, asked, request, now);
  }

  // ----- exactness

  ghost predicate AllPunctual(pool: Pool, model: ModelName) {
    forall id :: id in pool ==> Punctual(pool[id], model)
  }

  /** With punctual candidates the entries hold the verdicts of this very instant. */
  lemma PunctualIsCurrent(views: map<string, Entries>, known: Known, asked: set<string>, request: Request, now: Time)
    requires Covers(views, known, asked, request.model, now) && AllPunctual(Candidates(known, asked, request), request.model)
    ensures Current(Gather(views, known, asked, request), request.model, now)
  {
    GatherIsComplete(views, known, asked, request, now);
    hide Gather, Covers, Candidates;
    var es := Gather(views, known, asked, request);
    forall id | id in es ensures es[id] == Evaluate(es[id].meta, request.model, now) {
      PromotedIsFresh(es[id], request.model, now);
    }
  }

  ghost predicate AllCurrent(views: map<string, Entries>, model: ModelName, now: Time) {
    forall p :: p in views ==> Current(views[p], model, now)
  }

  /** So they do, whatever the candidates, when the shards have just been built. */
  lemma BuiltIsCurrent(views: map<string, Entries>, known: Known, asked: set<string>, request: Request, now: Time)
    requires AllCurrent(views, request.model, now)
    ensures Current(Gather(views, known, asked, request), request.model, now)
  {
  }

  /** Either way: `exact` says that the shards have just been built. */
  lemma ExactIsCurrent(views: map<string, Entries>, known: Known, asked: set<string>, request: Request, now: Time, exact: bool)
    requires Covers(views, known, asked, request.model, now) && (exact ==> AllCurrent(views, request.model, now))
    requires exact || AllPunctual(Candidates(known, asked, request), request.model)
    ensures Current(Gather(views, known, asked, request), request.model, now)
  {
    if exact {
      BuiltIsCurrent(views, known, asked, request, now);
    } else {
      PunctualIsCurrent(views, known, asked, request, now);
    }
  }

  /** Without that hypothesis whatever is ready is free all the same. */
  lemma UpToDateIsSound(es: Entries, model: ModelName, now: Time, id: string)
    requires UpToDate(es, model, now) && id in es && es[id].state == Ready
    ensures !IsBlocked(es[id].meta.auth, model, now).blocked
  {
    ReadyStaysFree(es[id], model, now);
  }

  /** Nor is anyone missed who is due. */
  lemma DueIsListed(views: map<string, Entries>, known: Known, asked: set<string>, request: Request, now: Time, id: string)
    requires Covers(views, known, asked, request.model, now)
    requires id in Candidates(known, asked, request) && IsDue(Candidates(known, asked, request)[id], request.model, now)
    ensures var es, pool := Gather(views, known, asked, request), Candidates(known, asked, request);
            id in ReadyAt(es, pool[id].priority) && pool[id] == es[id].meta.auth
  {
    hide Covers, Gather, IsDue;
    GatherIsComplete(views, known, asked, request, now);
    var es := Gather(views, known, asked, request);
    PromotedWhenDue(es[id], request.model, now);
  }

  // ----- picks over the gathered entries

  /** The highest priority with a ready entry, if any entry is ready. */
  ghost predicate IsBestPriority(es: Entries, best: Option<int>) {
    match best
    case None => forall q :: ReadyAt(es, q) == {}
    case Some(p) => ReadyAt(es, p) != {} && forall q :: q > p ==> ReadyAt(es, q) == {}
  }

  /** The best priority over some views: highest in one of them, exceeded in none. */
  ghost predicate IsBestOver(views: map<string, Entries>, done: set<string>, allowed: string -> bool, best: Option<int>) {
    match best
    case None => forall p, q :: p in done && p in views ==> Choices(views[p], q, false, allowed) == {}
    case Some(b) =>
      && (exists p :: p in done && p in views && Choices(views[p], b, false, allowed) != {})
      && forall p, q :: p in done && p in views && q > b ==> Choices(views[p], q, false, allowed) == {}
  }

  lemma NothingYet(views: map<string, Entries>, allowed: string -> bool)
    ensures IsBestOver(views, {}, allowed, None)
  {
  }

  function Better(best: Option<int>, found: Option<int>): Option<int> {
    if found.Some? && (best.None? || found.value > best.value) then found else best
  }

  /** One more provider: without a view it changes nothing, with one its highest ready
      priority competes. */
  lemma BestWithOneMore(views: map<string, Entries>, done: set<string>, allowed: string -> bool, best: Option<int>,
                        p: string, view: Option<Entries>, found: Option<int>)
    requires IsBestOver(views, done, allowed, best) && p !in done && p !in views && views.Keys <= done
    requires if view.Some? then IsHighestReady(view.value, false, allowed, found) else found == None
    ensures IsBestOver(if view.Some? then views[p := view.value] else views, done + {p}, allowed, Better(best, found))
  {
  }

  lemma BestOverAll(views: map<string, Entries>, known: Known, asked: set<string>, request: Request, now: Time, best: Option<int>)
    requires Covers(views, known, asked, request.model, now) && IsBestOver(views, asked, AllowedBy(request), best)
    ensures IsBestPriority(Gather(views, known, asked, request), best)
  {
    var es := Gather(views, known, asked, request);
    forall q | best.None? || q > best.value ensures ReadyAt(es, q) == {} {
      forall id | id in es ensures id !in ReadyAt(es, q) {
        var p := es[id].meta.auth.provider;
        GatherIsComplete(views, known, asked, request, now);
        ChoicesAmong(views, known, asked, request, now, p, q);
        assert id in ReadyAt(es, q) ==> id in ReadyAt(Among(es, {p}), q);
      }
    }
    if best.Some? {
      var p :| p in asked && p in views && Choices(views[p], best.value, false, AllowedBy(request)) != {};
      ChoicesAmong(views, known, asked, request, now, p, best.value);
      var id := Witness(Choices(views[p], best.value, false, AllowedBy(request)));
      assert id in ReadyAt(es, best.value);
    }
  }

  /** Whatever a shard picks is an untried candidate that is not blocked at this instant. */
  lemma PickIsSound(views: map<string, Entries>, known: Known, asked: set<string>, request: Request, now: Time,
                    p: string, priority: int, strategy: Strategy, auth: Auth)
    requires Covers(views, known, asked, request.model, now) && p in views
    requires IsPick(views[p], priority, false, strategy, AllowedBy(request), Some(auth))
    ensures var es, pool := Gather(views, known, asked, request), Candidates(known, asked, request);
            && auth.id in ReadyAt(es, priority) && auth.provider == p
            && auth.id in pool && pool[auth.id] == auth
            && !IsBlocked(auth, request.model, now).blocked
  {
    GatherIsComplete(views, known, asked, request, now);
    ChoicesAmong(views, known, asked, request, now, p, priority);
    Contribution(views, known, asked, request, now, p);
    var es := Gather(views, known, asked, request);
    assert auth.id in ReadyAt(Among(es, {p}), priority);
    UpToDateIsSound(es, request.model, now, auth.id);
  }

  lemma GatherShows(views: map<string, Entries>, known: Known, asked: set<string>, request: Request, now: Time)
    requires Covers(views, known, asked, request.model, now) && Current(Gather(views, known, asked, request), request.model, now)
    ensures Shows(Gather(views, known, asked, request), Candidates(known, asked, request), request.model, now)
  {
    GatherIsComplete(views, known, asked, request, now);
    hide Gather, Covers, Candidates;
  }

  /** A pick at the best priority is what the reference calls a pick. */
  lemma PickIsOutcome(views: map<string, Entries>, known: Known, asked: set<string>, request: Request, now: Time,
                      p: string, priority: int, strategy: Strategy, auth: Auth)
    requires Covers(views, known, asked, request.model, now) && p in views
    requires Current(Gather(views, known, asked, request), request.model, now)
    requires IsBestPriority(Gather(views, known, asked, request), Some(priority))
    requires IsPick(views[p], priority, false, strategy, AllowedBy(request), Some(auth))
    ensures IsOutcome(Candidates(known, asked, request), request.model, now, Picked(auth))
  {
    var es, pool := Gather(views, known, asked, request), Candidates(known, asked, request);
    PickIsSound(views, known, asked, request, now, p, priority, strategy, auth);
    GatherShows(views, known, asked, request, now);
    TopBucket(es, pool, request.model, now, priority);
  }

  /** Filling first in the order of the providers, it is the first top candidate. */
  lemma PickIsFirst(views: map<string, Entries>, known: Known, order: seq<string>, asked: set<string>, request: Request, now: Time,
                    i: nat, priority: int, auth: Auth)
    requires Covers(views, known, asked, request.model, now) && (forall p :: p in order <==> p in asked)
    requires Current(Gather(views, known, asked, request), request.model, now)
    requires IsBestPriority(Gather(views, known, asked, request), Some(priority))
    requires i < |order| && order[i] in views
    requires IsPick(views[order[i]], priority, false, FillFirst, AllowedBy(request), Some(auth))
    requires forall j :: 0 <= j < i && order[j] in views ==> Choices(views[order[j]], priority, false, AllowedBy(request)) == {}
    ensures IsMixedFillFirst(Candidates(known, asked, request), request.model, now, order, Picked(auth))
  {
    PickIsOutcome(views, known, asked, request, now, order[i], priority, FillFirst, auth);
    PickIsSound(views, known, asked, request, now, order[i], priority, FillFirst, auth);
    var pool := Candidates(known, asked, request);
    forall id | IsTop(pool, request.model, now, id)
      ensures pool[id].provider !in order[..i]
      ensures pool[id].provider == auth.provider ==> id == auth.id || Before(auth.id, id)
    {
      TopIsChoice(views, known, asked, request, now, priority, id);
    }
    assert order[i] == auth.provider && NoTopAmong(pool, request.model, now, order[..i]);
  }

  lemma TopIsChoice(views: map<string, Entries>, known: Known, asked: set<string>, request: Request, now: Time,
                    priority: int, id: string)
    requires Covers(views, known, asked, request.model, now)
    requires Current(Gather(views, known, asked, request), request.model, now)
    requires IsBestPriority(Gather(views, known, asked, request), Some(priority))
    requires IsTop(Candidates(known, asked, request), request.model, now, id)
    ensures var p := Candidates(known, asked, request)[id].provider;
            p in views && id in Choices(views[p], priority, false, AllowedBy(request))
  {
    var es, pool := Gather(views, known, asked, request), Candidates(known, asked, request);
    GatherIsComplete(views, known, asked, request, now);
    GatherShows(views, known, asked, request, now);
    TopBucket(es, pool, request.model, now, priority);
    var p := pool[id].provider;
    assert id in ReadyAt(Among(es, {p}), priority);
    ChoicesAmong(views, known, asked, request, now, p, priority);
  }

  /** Refusing by the counts over all shards is what the reference calls a failure. */
  lemma RefusalIsOutcome(views: map<string, Entries>, known: Known, asked: set<string>, request: Request, now: Time, earliest: Time)
    requires Covers(views, known, asked, request.model, now)
    requires Current(Gather(views, known, asked, request), request.model, now)
    requires IsBestPriority(Gather(views, known, asked, request), None)
    requires var es := Gather(views, known, asked, request);
             IsEarliest(RetryTimes(es), CountedCooling(es, Everyone()), earliest)
    ensures var es := Gather(views, known, asked, request);
            IsOutcome(Candidates(known, asked, request), request.model, now,
                      Refusal(|es|, |CountedCooling(es, Everyone())|, earliest, now))
  {
    var es, pool := Gather(views, known, asked, request), Candidates(known, asked, request);
    GatherIsComplete(views, known, asked, request, now);
    GatherShows(views, known, asked, request, now);
    NothingFree(es, pool, request.model, now);
    RefusalIsFailure(es, pool, request.model, now, earliest);
    assert |es| == |es.Keys| == |pool.Keys| == |pool|;
  }

  /** Which of the listed providers has a choice at a priority. */
  ghost function Offers(views: map<string, Entries>, order: seq<string>, priority: int, allowed: string -> bool): (mask: seq<bool>)
    ensures |mask| == |order|
  {
    seq(|order|, i requires 0 <= i < |order| => order[i] in views && Choices(views[order[i]], priority, false, allowed) != {})
  }

  /** What provider number `i` offers of itself, once it has been asked. */
  lemma OfferKnown(views: map<string, Entries>, order: seq<string>, priority: int, allowed: string -> bool, i: nat,
                   strategy: Strategy, picked: Option<Auth>)
    requires i < |order|
    requires if order[i] in views then IsPick(views[order[i]], priority, false, strategy, allowed, picked) else picked == None
    ensures Offers(views, order, priority, allowed)[i] <==> picked.Some?
  {
  }

  /** Which of the listed providers has a top candidate. */
  ghost function TopProviders(pool: Pool, model: ModelName, now: Time, order: seq<string>): (mask: seq<bool>)
    ensures |mask| == |order|
  {
    seq(|order|, i requires 0 <= i < |order| => HasTop(pool, model, now, order[i]))
  }

  ghost predicate HasTop(pool: Pool, model: ModelName, now: Time, provider: string) {
    exists id :: IsTop(pool, model, now, id) && pool[id].provider == provider
  }

  /** At the best priority it is those that have an offer. */
  lemma OffersAreTops(views: map<string, Entries>, known: Known, order: seq<string>, request: Request, now: Time, priority: int)
    requires Covers(views, known, Members(order), request.model, now)
    requires Current(Gather(views, known, Members(order), request), request.model, now)
    requires IsBestPriority(Gather(views, known, Members(order), request), Some(priority))
    ensures Offers(views, order, priority, AllowedBy(request))
         == TopProviders(Candidates(known, Members(order), request), request.model, now, order)
  {
    hide Covers, Current, Gather, HasTop, Candidates, Choices, IsBestPriority, Members;
    forall i | 0 <= i < |order|
      ensures Offers(views, order, priority, AllowedBy(request))[i]
           == TopProviders(Candidates(known, Members(order), request), request.model, now, order)[i] {
      OfferIsTop(views, known, Members(order), request, now, priority, order[i]);
    }
  }

  lemma OfferIsTop(views: map<string, Entries>, known: Known, asked: set<string>, request: Request, now: Time, priority: int, p: string)
    requires Covers(views, known, asked, request.model, now)
    requires Current(Gather(views, known, asked, request), request.model, now)
    requires IsBestPriority(Gather(views, known, asked, request), Some(priority))
    ensures p in views && Choices(views[p], priority, false, AllowedBy(request)) != {}
            <==> HasTop(Candidates(known, asked, request), request.model, now, p)
  {
    hide Covers, Current, Gather, Candidates, Choices, IsBestPriority;
    var pool := Candidates(known, asked, request);
    if p in views && Choices(views[p], priority, false, AllowedBy(request)) != {} {
      var id := Witness(Choices(views[p], priority, false, AllowedBy(request)));
      ChoiceIsTop(views, known, asked, request, now, priority, p, id);
    }
    if id :| IsTop(pool, request.model, now, id) && pool[id].provider == p {
      TopIsChoice(views, known, asked, request, now, priority, id);
    }
  }

  lemma ChoiceIsTop(views: map<string, Entries>, known: Known, asked: set<string>, request: Request, now: Time, priority: int,
                    p: string, id: string)
    requires Covers(views, known, asked, request.model, now) && p in views
    requires Current(Gather(views, known, asked, request), request.model, now)
    requires IsBestPriority(Gather(views, known, asked, request), Some(priority))
    requires id in Choices(views[p], priority, false, AllowedBy(request))
    ensures var pool := Candidates(known, asked, request); IsTop(pool, request.model, now, id) && pool[id].provider == p
  {
    var es, pool := Gather(views, known, asked, request), Candidates(known, asked, request);
    GatherIsComplete(views, known, asked, request, now);
    ChoicesAmong(views, known, asked, request, now, p, priority);
    GatherShows(views, known, asked, request, now);
    TopBucket(es, pool, request.model, now, priority);
    hide Covers, Gather, Candidates, Choices, IsTop;
    assert id in ReadyAt(Among(es, {p}), priority);
  }

  /** Nobody offers anything at the best priority: impossible. */
  lemma SomeOffer(views: map<string, Entries>, order: seq<string>, priority: int, allowed: string -> bool)
    requires IsBestOver(views, Members(order), allowed, Some(priority))
    ensures true in Offers(views, order, priority, allowed)
  {
    var p :| p in Members(order) && p in views && Choices(views[p], priority, false, allowed) != {};
    var i :| 0 <= i < |order| && order[i] == p;
    assert Offers(views, order, priority, allowed)[i];
  }

  lemma NotAllCooling(es: Entries)
    ensures !IsBestPriority(es, None) ==> |CountedCooling(es, Everyone())| < |es|
  {
    assert |es| == |es.Keys|;
    SubsetSize(CountedCooling(es, Everyone()), es.Keys);
    if q :| ReadyAt(es, q) != {} {
      var id := Witness(ReadyAt(es, q));
      assert id !in CountedCooling(es, Everyone());
    }
  }

  lemma SummedRefusal(views: map<string, Entries>, known: Known, asked: set<string>, request: Request, now: Time,
                      total: nat, cooling: nat, earliest: Time)
    requires Covers(views, known, asked, request.model, now)
    requires SummedUp(Gather(views, known, asked, request), asked, total, cooling, earliest)
    ensures Current(Gather(views, known, asked, request), request.model, now)
              && IsBestPriority(Gather(views, known, asked, request), None)
            ==> IsOutcome(Candidates(known, asked, request), request.model, now, Refusal(total, cooling, earliest, now))
    ensures !IsBestPriority(Gather(views, known, asked, request), None) ==> Refusal(total, cooling, earliest, now) == Unavailable
    ensures Refusal(total, cooling, earliest, now) == NotFound <==> Candidates(known, asked, request) == map[]
  {
    GatherIsComplete(views, known, asked, request, now);
    assert |Gather(views, known, asked, request)| == |Candidates(known, asked, request).Keys|;
    AllSummed(views, known, asked, request, now, total, cooling, earliest);
    NotAllCooling(Gather(views, known, asked, request));
    if Current(Gather(views, known, asked, request), request.model, now) && IsBestPriority(Gather(views, known, asked, request), None) {
      RefusalIsOutcome(views, known, asked, request, now, earliest);
    }
  }

  // ----- several providers

  /** Fill-first over an ordered list of providers: of the free candidates of the highest
      priority, those of the first provider that has any, and of these the first by ID. */
  ghost predicate IsMixedFillFirst(pool: Pool, model: ModelName, now: Time, order: seq<string>, r: Outcome) {
    && IsOutcome(pool, model, now, r)
    && (r.Picked? ==> IsFirstTop(pool, model, now, order, r.auth))
  }

  ghost predicate IsFirstTop(pool: Pool, model: ModelName, now: Time, order: seq<string>, auth: Auth) {
    exists i :: 0 <= i < |order| && order[i] == auth.provider
             && NoTopAmong(pool, model, now, order[..i])
             && forall id :: IsTop(pool, model, now, id) && pool[id].provider == auth.provider ==> id == auth.id || Before(auth.id, id)
  }

  ghost predicate NoTopAmong(pool: Pool, model: ModelName, now: Time, providers: seq<string>) {
    forall id :: IsTop(pool, model, now, id) ==> pool[id].provider !in providers
  }

  /** Whether `auth` belongs to the first listed provider with a top candidate. */
  ghost predicate LeadsOrder(pool: Pool, model: ModelName, now: Time, order: seq<string>, auth: Auth) {
    exists i :: 0 <= i < |order| && order[i] == auth.provider && NoTopAmong(pool, model, now, order[..i])
  }

  lemma ProviderOrder(pool: Pool, model: ModelName, now: Time, order: seq<string>, a: Auth, b: Auth)
    requires LeadsOrder(pool, model, now, order, a) && LeadsOrder(pool, model, now, order, b)
    requires a.id in pool && pool[a.id] == a && IsTop(pool, model, now, a.id)
    requires b.id in pool && pool[b.id] == b && IsTop(pool, model, now, b.id)
    ensures a.provider == b.provider
  {
    var i :| 0 <= i < |order| && order[i] == a.provider && NoTopAmong(pool, model, now, order[..i]);
    var j :| 0 <= j < |order| && order[j] == b.provider && NoTopAmong(pool, model, now, order[..j]);
    assert forall k :: 0 <= k < i ==> order[k] in order[..i];
    assert forall k :: 0 <= k < j ==> order[k] in order[..j];
  }

  /** The best candidate, if there is one, belongs to the first listed provider that has a
      top candidate. */
  ghost predicate BestLeads(pool: Pool, model: ModelName, now: Time, order: seq<string>) {
    forall id :: IsBest(pool, model, now, id) ==> LeadsOrder(pool, model, now, order, pool[id])
  }

  /** On any list of providers the scheduler's fill-first and the rescan's refuse alike;
      they pick the same credential exactly when the best candidate belongs to the first
      listed provider that has a top candidate. */
  lemma MixedAgreement(pool: Pool, model: ModelName, now: Time, order: seq<string>, fast: Outcome, slow: Outcome)
    requires Keyed(pool) && IsMixedFillFirst(pool, model, now, order, fast) && IsFillFirst(pool, model, now, slow)
    ensures fast == slow <==> BestLeads(pool, model, now, order)
    ensures fast.Picked? <==> slow.Picked?
    ensures !slow.Picked? ==> fast == slow
  {
    OnlyBest(pool, model, now, slow);
    if fast.Picked? && slow.Picked? {
      assert LeadsOrder(pool, model, now, order, fast.auth) by {
        var i :| 0 <= i < |order| && order[i] == fast.auth.provider && NoTopAmong(pool, model, now, order[..i]);
      }
      if LeadsOrder(pool, model, now, order, slow.auth) {
        ProviderOrder(pool, model, now, order, fast.auth, slow.auth);
        if fast.auth.id != slow.auth.id {
          assert Before(fast.auth.id, slow.auth.id);
          BeforeIsStrict(fast.auth.id, slow.auth.id);
          assert false;
        }
      }
    }
  }

  /** The fill-first pick is the only best candidate; a refusal means that there is none. */
  lemma OnlyBest(pool: Pool, model: ModelName, now: Time, slow: Outcome)
    requires Keyed(pool) && IsFillFirst(pool, model, now, slow)
    ensures forall id :: IsBest(pool, model, now, id) <==> slow.Picked? && id == slow.auth.id
  {
    forall id | IsBest(pool, model, now, id) ensures slow.Picked? && id == slow.auth.id {
      if id != slow.auth.id {
        assert Before(id, slow.auth.id) && Before(slow.auth.id, id);
        BeforeIsStrict(id, slow.auth.id);
      }
    }
  }

  /** With a single provider there is no condition left. */
  lemma SingleProvider(pool: Pool, model: ModelName, now: Time, provider: string, fast: Outcome)
    requires Keyed(pool) && forall id :: id in pool ==> pool[id].provider == provider
    requires IsMixedFillFirst(pool, model, now, [provider], fast)
    ensures IsFillFirst(pool, model, now, fast)
  {
  }

  /** Two providers on which they differ: the rescan takes the lower ID, the scheduler
      the provider that is listed first. */
  lemma ProvidersMayDisagree() returns (pool: Pool, model: ModelName, order: seq<string>, fast: Outcome, slow: Outcome)
    ensures Keyed(pool) && IsMixedFillFirst(pool, model, 1, order, fast) && IsFillFirst(pool, model, 1, slow) && fast != slow
  {
    model := ModelName("m", "");
    var a := Auth("a", "q", 0, false, false, Active, false, 0, NO_QUOTA, None, None, None, map[]);
    var b := a.(id := "b", provider := "p");
    pool, order := map["a" := a, "b" := b], ["p", "q"];
    fast, slow := Picked(b), Picked(a);
    assert FreeIds(pool, model, 1) == {"a", "b"};
    assert order[0] == "p" && order[..0] == [];
    assert Before("a", "b");
  }

  // ----- who is due

  /** Of the due candidates of the pick's priority none belongs to a provider listed
      earlier, and none of its own provider comes before it. */
  ghost predicate LeadsTheDue(pool: Pool, model: ModelName, now: Time, order: seq<string>, auth: Auth) {
    exists i :: 0 <= i < |order| && order[i] == auth.provider
             && forall id :: id in pool && IsDue(pool[id], model, now) && pool[id].priority == auth.priority ==>
                  && pool[id].provider !in order[..i]
                  && (pool[id].provider == auth.provider ==> id == auth.id || Before(auth.id, id))
  }

  /** No candidate that is due is passed over: a refusal means that there is none, a pick
      has at least the priority of each, and filling first it leads those of its own.
      Not found says that there are no candidates at all. */
  ghost predicate NoDueMissed(pool: Pool, model: ModelName, now: Time, order: seq<string>, strategy: Strategy, r: Outcome) {
    && (r.NotFound? <==> pool == map[])
    && (forall id :: id in pool && IsDue(pool[id], model, now) ==> r.Picked? && pool[id].priority <= r.auth.priority)
    && (strategy == FillFirst && r.Picked? ==> LeadsTheDue(pool, model, now, order, r.auth))
  }

  lemma PickMissesNoDue(views: map<string, Entries>, known: Known, order: seq<string>, asked: set<string>, request: Request, now: Time,
                        i: nat, priority: int, strategy: Strategy, auth: Auth)
    requires Covers(views, known, asked, request.model, now) && IsBestOver(views, asked, AllowedBy(request), Some(priority))
    requires i < |order| && order[i] in views
    requires IsPick(views[order[i]], priority, false, strategy, AllowedBy(request), Some(auth))
    requires strategy == FillFirst ==>
      forall j :: 0 <= j < i && order[j] in views ==> Choices(views[order[j]], priority, false, AllowedBy(request)) == {}
    ensures NoDueMissed(Candidates(known, asked, request), request.model, now, order, strategy, Picked(auth))
  {
    hide Covers, Gather, Candidates, IsDue, IsBestOver;
    var es, pool := Gather(views, known, asked, request), Candidates(known, asked, request);
    BestOverAll(views, known, asked, request, now, Some(priority));
    PickIsSound(views, known, asked, request, now, order[i], priority, strategy, auth);
    forall id | id in pool && IsDue(pool[id], request.model, now)
      ensures pool[id].priority <= priority
      ensures pool[id].priority == priority ==> DueChoice(views, priority, request, pool[id].provider, id)
    {
      DueIsListed(views, known, asked, request, now, id);
      if pool[id].priority == priority {
        ReadyIsChoice(views, known, asked, request, now, priority, id);
      }
    }
    assert auth.priority == priority && order[i] == auth.provider;
    if strategy == FillFirst {
      assert LeadsTheDue(pool, request.model, now, order, auth);
    }
  }

  ghost predicate DueChoice(views: map<string, Entries>, priority: int, request: Request, p: string, id: string) {
    p in views && id in Choices(views[p], priority, false, AllowedBy(request))
  }

  lemma ReadyIsChoice(views: map<string, Entries>, known: Known, asked: set<string>, request: Request, now: Time, priority: int, id: string)
    requires Covers(views, known, asked, request.model, now) && id in ReadyAt(Gather(views, known, asked, request), priority)
    ensures DueChoice(views, priority, request, Gather(views, known, asked, request)[id].meta.auth.provider, id)
  {
    var es := Gather(views, known, asked, request);
    GatherIsComplete(views, known, asked, request, now);
    var p := es[id].meta.auth.provider;
    assert p in views;
    ChoicesAmong(views, known, asked, request, now, p, priority);
    hide Covers, Gather, Choices;
    assert id in ReadyAt(Among(es, {p}), priority);
  }

  lemma RefusalMissesNoDue(views: map<string, Entries>, known: Known, order: seq<string>, asked: set<string>, request: Request, now: Time,
                           strategy: Strategy, r: Outcome)
    requires Covers(views, known, asked, request.model, now) && IsBestPriority(Gather(views, known, asked, request), None)
    requires !r.Picked? && (r.NotFound? <==> Candidates(known, asked, request) == map[])
    ensures NoDueMissed(Candidates(known, asked, request), request.model, now, order, strategy, r)
  {
    hide Covers, Gather, Candidates, IsDue;
    var pool := Candidates(known, asked, request);
    forall id | id in pool ensures !IsDue(pool[id], request.model, now) {
      if IsDue(pool[id], request.model, now) {
        DueIsListed(views, known, asked, request, now, id);
        assert false;
      }
    }
  }

  // ----- the answer to a request

  /** What pickMixed owes for a request whose model has no suffix. Whatever the candidates
      a pick is untried and not blocked now, and nobody who is due is passed over; with
      punctual candidates it is the reference's answer, and when filling first the
      reference's fill-first answer. The latter holds for any candidates when the answer is
      `exact`, from shards that have just been built. */
  ghost predicate Answers(known: Known, order: seq<string>, request: Request, strategy: Strategy, now: Time, exact: bool, r: Outcome) {
    var pool := Candidates(known, Members(order), request);
    && !r.NoProvider?
    && (r.Picked? ==> r.auth.id in pool && pool[r.auth.id] == r.auth && !IsBlocked(r.auth, request.model, now).blocked)
    && NoDueMissed(pool, request.model, now, order, strategy, r)
    && (exact || AllPunctual(pool, request.model) ==>
          && IsOutcome(pool, request.model, now, r)
          && (strategy == FillFirst ==> IsMixedFillFirst(pool, request.model, now, order, r)))
  }

  lemma RefusalAnswers(known: Known, order: seq<string>, request: Request, strategy: Strategy, now: Time, exact: bool, r: Outcome)
    requires r.NotFound? || r.Unavailable? || r.CoolingDown?
    requires var pool := Candidates(known, Members(order), request);
             && NoDueMissed(pool, request.model, now, order, strategy, r)
             && (exact || AllPunctual(pool, request.model) ==> IsOutcome(pool, request.model, now, r))
    ensures Answers(known, order, request, strategy, now, exact, r)
  {
  }

  lemma FillFirstAnswers(views: map<string, Entries>, known: Known, order: seq<string>, request: Request, now: Time,
                         i: nat, priority: int, exact: bool, picked: Auth)
    requires Covers(views, known, Members(order), request.model, now) && (exact ==> AllCurrent(views, request.model, now))
    requires IsBestOver(views, Members(order), AllowedBy(request), Some(priority))
    requires i < |order| && order[i] in views
    requires IsPick(views[order[i]], priority, false, FillFirst, AllowedBy(request), Some(picked))
    requires forall j :: 0 <= j < i ==> !Offers(views, order, priority, AllowedBy(request))[j]
    ensures Answers(known, order, request, FillFirst, now, exact, Picked(picked))
  {
    var asked := Members(order);
    hide NoDueMissed;
    BestOverAll(views, known, asked, request, now, Some(priority));
    PickIsSound(views, known, asked, request, now, order[i], priority, FillFirst, picked);
    forall j | 0 <= j < i && order[j] in views ensures Choices(views[order[j]], priority, false, AllowedBy(request)) == {} {
      assert !Offers(views, order, priority, AllowedBy(request))[j];
    }
    PickMissesNoDue(views, known, order, asked, request, now, i, priority, FillFirst, picked);
    if exact || AllPunctual(Candidates(known, asked, request), request.model) {
      ExactIsCurrent(views, known, asked, request, now, exact);
      PickIsFirst(views, known, order, asked, request, now, i, priority, picked);
    }
  }

  lemma InTurnAnswers(views: map<string, Entries>, known: Known, order: seq<string>, request: Request, now: Time,
                      p: string, priority: int, exact: bool, picked: Auth)
    requires Covers(views, known, Members(order), request.model, now) && (exact ==> AllCurrent(views, request.model, now))
    requires IsBestOver(views, Members(order), AllowedBy(request), Some(priority))
    requires p in order && p in views && IsPick(views[p], priority, false, RoundRobin, AllowedBy(request), Some(picked))
    ensures Answers(known, order, request, RoundRobin, now, exact, Picked(picked))
  {
    var asked := Members(order);
    BestOverAll(views, known, asked, request, now, Some(priority));
    PickIsSound(views, known, asked, request, now, p, priority, RoundRobin, picked);
    hide NoDueMissed;
    var i :| 0 <= i < |order| && order[i] == p;
    PickMissesNoDue(views, known, order, asked, request, now, i, priority, RoundRobin, picked);
    if exact || AllPunctual(Candidates(known, asked, request), request.model) {
      ExactIsCurrent(views, known, asked, request, now, exact);
      PickIsOutcome(views, known, asked, request, now, p, priority, RoundRobin, picked);
    }
  }

  /** One shard alone, as for a pinned auth. */
  lemma ReadyPickAnswers(view: Entries, known: Known, provider: string, request: Request, strategy: Strategy, now: Time,
                         exact: bool, picked: Option<Auth>)
    requires Covers(map[provider := view], known, {provider}, request.model, now) && (exact ==> Current(view, request.model, now))
    requires IsReadyPick(view, false, strategy, AllowedBy(request), picked)
    ensures picked.Some? ==> Answers(known, [provider], request, strategy, now, exact, Picked(picked.value))
    ensures picked.None? ==> IsBestPriority(Gather(map[provider := view], known, {provider}, request), None)
  {
    var views := map[provider := view];
    assert Members([provider]) == {provider};
    if picked.Some? {
      var p :| IsHighest(view, false, AllowedBy(request), p) && IsPick(view, p, false, strategy, AllowedBy(request), picked);
      assert IsBestOver(views, {provider}, AllowedBy(request), Some(p));
      if strategy == FillFirst {
        FillFirstAnswers(views, known, [provider], request, now, 0, p, exact, picked.value);
      } else {
        InTurnAnswers(views, known, [provider], request, now, provider, p, exact, picked.value);
      }
    } else {
      assert IsBestOver(views, {provider}, AllowedBy(request), None);
      BestOverAll(views, known, {provider}, request, now, None);
    }
  }

  /** When all candidates belong to one of the listed providers, only that one counts. */
  lemma OneProviderAnswers(known: Known, order: seq<string>, provider: string, request: Request, strategy: Strategy, now: Time,
                           exact: bool, r: Outcome)
    requires provider in order && Distinct(order)
    requires Candidates(known, {provider}, request) == Candidates(known, Members(order), request)
    requires Answers(known, [provider], request, strategy, now, exact, r)
    ensures Answers(known, order, request, strategy, now, exact, r)
  {
    assert Members([provider]) == {provider};
    var pool := Candidates(known, {provider}, request);
    if r.Picked? && (exact || AllPunctual(pool, request.model)) {
      var i :| 0 <= i < |order| && order[i] == provider;
      assert r.auth.provider == provider;
      assert NoTopAmong(pool, request.model, now, order[..i]);
    }
  }

  /** Whatever is answered, a pick is an untried auth of the requested providers. */
  lemma AnswerIsUntried(known: Known, order: seq<string>, request: Request, strategy: Strategy, now: Time, exact: bool, auth: Auth)
    requires (forall id :: id in known ==> known[id].auth.id == id)
    requires Answers(known, order, request, strategy, now, exact, Picked(auth))
    ensures auth.id in known && known[auth.id].auth == auth && auth.id !in request.tried && auth.provider in Members(order)
  {
    hide Members, IsOutcome, IsMixedFillFirst;
  }
}
