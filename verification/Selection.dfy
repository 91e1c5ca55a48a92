/** The rescan that the scheduler replaces: every pick walks all candidates
    (sdk/cockpit/auth/selector.go, sdk/cockpit/auth/conductor_selection.go), together
    with a reference reading of what a pick must return. */
module Selection {
  import opened Ordering
  import opened Credentials
  import opened ShardIndex

  /** The candidates of one request, by ID. */
  type Pool = map<string, Auth>

  datatype Outcome = Picked(auth: Auth) | NotFound | NoProvider | Unavailable | CoolingDown(resetIn: Time)

  ghost predicate Keyed(pool: Pool) {
    forall id :: id in pool ==> pool[id].id == id
  }

  // ----- the reference

  function FreeIds(pool: Pool, model: ModelName, now: Time): set<string> {
    set id | id in pool && !IsBlocked(pool[id], model, now).blocked
  }

  function CoolingIds(pool: Pool, model: ModelName, now: Time): set<string> {
    set id | id in pool && IsBlocked(pool[id], model, now).reason == Cooldown
  }

  /** No free candidate has a higher priority. */
  ghost predicate IsTop(pool: Pool, model: ModelName, now: Time, id: string) {
    && id in FreeIds(pool, model, now)
    && forall other :: other in FreeIds(pool, model, now) ==> pool[other].priority <= pool[id].priority
  }

  /** Of the free candidates of the highest priority, the first by ID. */
  ghost predicate IsBest(pool: Pool, model: ModelName, now: Time, id: string) {
    && IsTop(pool, model, now, id)
    && forall other :: other in FreeIds(pool, model, now) && pool[other].priority == pool[id].priority
         ==> other == id || Before(id, other)
  }

  ghost predicate IsFirstReset(pool: Pool, model: ModelName, now: Time, reset: Time) {
    && (exists id :: id in pool && IsBlocked(pool[id], model, now).next == reset)
    && forall id :: id in pool ==> reset <= IsBlocked(pool[id], model, now).next
  }

  /** How a pick fails when nothing is free. */
  ghost predicate IsFailure(pool: Pool, model: ModelName, now: Time, r: Outcome) {
    if pool == map[] then r == NotFound
    else if CoolingIds(pool, model, now) == pool.Keys then
      r.CoolingDown? && IsFirstReset(pool, model, now, now + r.resetIn)
    else r == Unavailable
  }

  /** A pick under any strategy. */
  ghost predicate IsOutcome(pool: Pool, model: ModelName, now: Time, r: Outcome) {
    if FreeIds(pool, model, now) == {} then IsFailure(pool, model, now, r)
    else r.Picked? && r.auth.id in pool && r.auth == pool[r.auth.id] && IsTop(pool, model, now, r.auth.id)
  }

  /** A pick when filling the first credential first. */
  ghost predicate IsFillFirst(pool: Pool, model: ModelName, now: Time, r: Outcome) {
    && IsOutcome(pool, model, now, r)
    && (r.Picked? ==> IsBest(pool, model, now, r.auth.id))
  }

  /** A fill-first pick that prefers websockets among the best. */
  ghost predicate IsSocketFirst(pool: Pool, model: ModelName, now: Time, r: Outcome) {
    && IsOutcome(pool, model, now, r)
    && (r.Picked? ==>
          forall other :: IsTop(pool, model, now, other) ==>
            if pool[other].websockets == r.auth.websockets then other == r.auth.id || Before(r.auth.id, other)
            else r.auth.websockets)
  }

  /** The reference leaves fill-first no freedom: same candidates, same instant, same
      answer, down to the reset time of a refusal. */
  lemma FillFirstUnique(pool: Pool, model: ModelName, now: Time, r: Outcome, s: Outcome)
    requires IsFillFirst(pool, model, now, r) && IsFillFirst(pool, model, now, s)
    ensures r == s
  {
    if r.Picked? && s.Picked? && r.auth.id != s.auth.id {
      BeforeIsStrict(r.auth.id, s.auth.id);
    }
  }

  // ----- the candidates of a request

  /** The provider that the websocket preference is for. */
  const CODEX := "codex"

  datatype Request = Request(model: ModelName, tried: set<string>, pinned: string)

  predicate Allowed(request: Request, id: string) {
    (request.pinned == "" || id == request.pinned) && id !in request.tried
  }

  function AllowedBy(request: Request): string -> bool {
    id => Allowed(request, id)
  }

  predicate IsCandidate(meta: Meta, providers: set<string>, request: Request) {
    && !meta.auth.disabled
    && meta.auth.provider != "" && meta.auth.provider in providers
    && Allowed(request, meta.auth.id)
    && Supports(meta, request.model)
  }

  function Candidates(auths: map<string, Meta>, providers: set<string>, request: Request): Pool {
    map id | id in auths && IsCandidate(auths[id], providers, request) :: auths[id].auth
  }

  /** A fill-first pick is an untried auth of the requested providers. */
  lemma FillFirstIsUntried(auths: map<string, Meta>, providers: set<string>, request: Request, now: Time, auth: Auth)
    requires forall id :: id in auths ==> auths[id].auth.id == id
    requires IsFillFirst(Candidates(auths, providers, request), request.model, now, Picked(auth))
    ensures auth.id in auths && auths[auth.id].auth == auth && auth.id !in request.tried && auth.provider in providers
  {
  }

  // ----- the rescan

  /** The verdicts of one instant on a whole pool, in the form a shard keeps them. */
  function Evaluated(pool: Pool, model: ModelName, now: Time): Entries {
    map id | id in pool :: Evaluate(Meta(pool[id], {}), model, now)
  }

  function Everyone(): string -> bool {
    id => true
  }

  /** `es` holds the verdicts of instant `now` on `pool`. */
  ghost predicate Shows(es: Entries, pool: Pool, model: ModelName, now: Time) {
    && es.Keys == pool.Keys
    && forall id :: id in pool ==>
         && es[id].meta.auth == pool[id]
         && es[id].state == StateOf(IsBlocked(pool[id], model, now))
         && es[id].nextRetryAt == RetryOf(IsBlocked(pool[id], model, now))
  }

  lemma EvaluatedShows(pool: Pool, model: ModelName, now: Time)
    ensures Shows(Evaluated(pool, model, now), pool, model, now)
  {
  }

  lemma NothingFree(es: Entries, pool: Pool, model: ModelName, now: Time)
    requires Shows(es, pool, model, now) && forall p :: ReadyAt(es, p) == {}
    ensures FreeIds(pool, model, now) == {}
  {
    forall id | id in pool ensures IsBlocked(pool[id], model, now).blocked {
      assert id !in ReadyAt(es, pool[id].priority);
    }
  }

  lemma TopBucket(es: Entries, pool: Pool, model: ModelName, now: Time, p: int)
    requires Shows(es, pool, model, now)
    requires ReadyAt(es, p) != {} && forall q :: q > p ==> ReadyAt(es, q) == {}
    ensures FreeIds(pool, model, now) != {}
    ensures forall id :: id in ReadyAt(es, p) <==> IsTop(pool, model, now, id)
  {
    var some := Witness(ReadyAt(es, p));
    assert some in FreeIds(pool, model, now);
    forall id | id in FreeIds(pool, model, now) ensures pool[id].priority <= p {
      assert id in ReadyAt(es, pool[id].priority);
    }
  }

  /** The refusal that the counts of a summary call for. */
  function Refusal(total: nat, cooling: nat, earliest: Time, now: Time): Outcome {
    if total == 0 then NotFound
    else if cooling == total && earliest != 0 then CoolingDown(if earliest < now then 0 else earliest - now)
    else Unavailable
  }

  lemma RefusalIsFailure(es: Entries, pool: Pool, model: ModelName, now: Time, earliest: Time)
    requires Shows(es, pool, model, now) && FreeIds(pool, model, now) == {}
    requires IsEarliest(RetryTimes(es), CountedCooling(es, Everyone()), earliest)
    ensures IsFailure(pool, model, now, Refusal(|pool|, |CountedCooling(es, Everyone())|, earliest, now))
  {
    ShownCooling(es, pool, model, now);
    hide Shows, CountedCooling, CoolingIds, FreeIds, IsEarliest, IsFirstReset, RetryTimes, IsBlocked;
    var cooling := CoolingIds(pool, model, now);
    SubsetSize(cooling, pool.Keys);
    assert |pool| == |pool.Keys|;
    if pool != map[] && cooling == pool.Keys {
      FirstReset(es, pool, model, now, earliest);
    }
  }

  lemma ShownCooling(es: Entries, pool: Pool, model: ModelName, now: Time)
    requires Shows(es, pool, model, now)
    ensures CountedCooling(es, Everyone()) == CoolingIds(pool, model, now) <= pool.Keys
  {
  }

  lemma FirstReset(es: Entries, pool: Pool, model: ModelName, now: Time, earliest: Time)
    requires Shows(es, pool, model, now) && pool != map[] && CoolingIds(pool, model, now) == pool.Keys
    requires IsEarliest(RetryTimes(es), CoolingIds(pool, model, now), earliest)
    ensures earliest > now && IsFirstReset(pool, model, now, earliest)
  {
    hide IsBlocked;
    var some :| some in pool;
    forall id | id in pool ensures id in RetryTimes(es) && RetryTimes(es)[id] == IsBlocked(pool[id], model, now).next > now {
      assert id in CoolingIds(pool, model, now);
      CoolingLooksAhead(pool[id], model, now);
    }
    hide RetryTimes, CoolingIds, Shows;
  }

  lemma CoolingLooksAhead(auth: Auth, model: ModelName, now: Time)
    requires IsBlocked(auth, model, now).reason == Cooldown
    ensures IsBlocked(auth, model, now).next > now && RetryOf(IsBlocked(auth, model, now)) == IsBlocked(auth, model, now).next
  {
  }

  lemma SubsetSize<T>(S: set<T>, U: set<T>)
    requires S <= U
    ensures |S| <= |U| && (|S| == |U| <==> S == U)
  {
    assert U == S + (U - S);
    if S != U {
      var x := Witness(U - S);
    }
  }

  lemma ShownVerdict(pool: Pool, id: string, model: ModelName, now: Time)
    requires id in pool
    ensures Evaluated(pool, model, now).Keys == pool.Keys
    ensures var es := Evaluated(pool, model, now); id in RetryTimes(es) && RetryTimes(es)[id] == es[id].nextRetryAt
    ensures var e, v := Evaluated(pool, model, now)[id], IsBlocked(pool[id], model, now);
            && e.meta.auth == pool[id]
            && (e.state == Ready <==> !v.blocked)
            && (e.state == Cooling <==> v.blocked && v.reason == Cooldown)
            && (e.state == Cooling ==> e.nextRetryAt == v.next)
  {
  }

  /** collectAvailableByPriority. */
  method CollectAvailable(pool: Pool, model: ModelName, now: Time)
    returns (available: map<int, set<string>>, cooling: nat, earliest: Time)
    ensures var es := Evaluated(pool, model, now);
            && AreBuckets(available, es)
            && cooling == |CountedCooling(es, Everyone())|
            && IsEarliest(RetryTimes(es), CountedCooling(es, Everyone()), earliest)
  {
    available, cooling, earliest := map[], 0, 0;
    ghost var es := Evaluated(pool, model, now);
    var todo := pool.Keys;
    while todo != {}
      invariant todo <= pool.Keys
      invariant AreBuckets(available, es - todo)
      invariant cooling == |CountedCooling(es - todo, Everyone())|
      invariant IsEarliest(RetryTimes(es), CountedCooling(es - todo, Everyone()), earliest)
    {
      hide AreBuckets, IsEarliest, Evaluated, Evaluate, IsBlocked, CountedCooling, RetryTimes;
      var id :| id in todo;
      ShownVerdict(pool, id, model, now);
      BucketsGrow(available, es, todo, id);
      CountStep(es, todo, id, Everyone());
      EarliestStep(RetryTimes(es), CountedCooling(es - todo, Everyone()), earliest, id);
      todo := todo - {id};
      var candidate := pool[id];
      var v := IsBlocked(candidate, model, now);
      if !v.blocked {
        var priority := candidate.priority;
        var bucket := (if priority in available then available[priority] else {}) + {id};
        available := available[priority := bucket];
        continue;
      }
      if v.reason == Cooldown {
        cooling := cooling + 1;
        if v.next != 0 && (earliest == 0 || v.next < earliest) {
          earliest := v.next;
        }
      }
    }
    assert es - todo == es;
  }

  /** getAvailableAuths: the free candidates of the best priority, sorted by ID, or the
      reason why there are none. */
  method GetAvailable(pool: Pool, model: ModelName, now: Time) returns (ids: seq<string>, failure: Outcome)
    ensures FreeIds(pool, model, now) == {} ==> ids == [] && IsFailure(pool, model, now, failure)
    ensures FreeIds(pool, model, now) != {} ==>
              ids != [] && Sorted(ids, Before) &&
              forall id :: id in ids <==> IsTop(pool, model, now, id)
  {
    ghost var es := Evaluated(pool, model, now);
    ids, failure := [], NotFound;
    EvaluatedShows(pool, model, now);
    hide Shows, IsEarliest, CountedCooling, Evaluated, FreeIds, IsTop;
    var available, cooling, earliest := CollectAvailable(pool, model, now);
    if |available| == 0 {
      NothingFree(es, pool, model, now);
      RefusalIsFailure(es, pool, model, now, earliest);
      if |pool| == 0 {
        return [], NotFound;
      }
      if cooling == |pool| && earliest != 0 {
        return [], CoolingDown(if earliest < now then 0 else earliest - now);
      }
      return [], Unavailable;
    }
    var best: Option<int> := None;
    var todo := available.Keys;
    while todo != {}
      invariant todo <= available.Keys
      invariant best.None? ==> todo == available.Keys
      invariant best.Some? ==> best.value in available.Keys - todo && forall p :: p in available && p !in todo ==> p <= best.value
    {
      ghost var some := Witness(todo);
      var p :| p in todo;
      todo := todo - {p};
      if best.None? || p > best.value {
        best := Some(p);
      }
    }
    TopBucket(es, pool, model, now, best.value);
    ids := SortIds(available[best.value]);
  }

  function WithSocket(ids: seq<string>, pool: Pool): set<string>
    requires forall id :: id in ids ==> id in pool
  {
    set id | id in ids && pool[id].websockets
  }

  /** preferCodexWebsocketAuths: the websocket credentials if there are any. */
  method PreferSockets(ids: seq<string>, pool: Pool) returns (preferred: seq<string>)
    requires ids != [] && Sorted(ids, Before) && forall id :: id in ids ==> id in pool
    ensures preferred != []
    ensures if WithSocket(ids, pool) == {} then preferred == ids else Lists(preferred, WithSocket(ids, pool), Before)
  {
    hide Lists;
    preferred := [];
    NoneListed();
    assert WithSocket(ids[..0], pool) == {};
    for i := 0 to |ids|
      invariant Lists(preferred, WithSocket(ids[..i], pool), Before)
    {
      assert ids[..i + 1] == ids[..i] + [ids[i]];
      if pool[ids[i]].websockets {
        ListsMore(preferred, WithSocket(ids[..i], pool), Before, ids[i]);
        assert WithSocket(ids[..i + 1], pool) == WithSocket(ids[..i], pool) + {ids[i]};
        preferred := preferred + [ids[i]];
      } else {
        assert WithSocket(ids[..i + 1], pool) == WithSocket(ids[..i], pool);
      }
    }
    assert ids[..|ids|] == ids;
    NoneOrSome(preferred, WithSocket(ids, pool));
    if |preferred| == 0 {
      return ids;
    }
  }

  lemma NoneOrSome(s: seq<string>, S: set<string>)
    requires Lists(s, S, Before)
    ensures s == [] <==> S == {}
  {
    assert s != [] ==> s[0] in s;
    if S != {} {
      var some := Witness(S);
    }
  }

  ghost predicate ListsTops(pool: Pool, model: ModelName, now: Time, ids: seq<string>) {
    && ids != [] && Sorted(ids, Before)
    && (forall id :: id in ids ==> id in pool)
    && forall id :: id in ids <==> IsTop(pool, model, now, id)
  }

  lemma TopIsOutcome(pool: Pool, model: ModelName, now: Time, id: string)
    requires Keyed(pool) && IsTop(pool, model, now, id)
    ensures id in pool && IsOutcome(pool, model, now, Picked(pool[id]))
  {
  }

  /** The first of the best, and the first of those with a websocket. */
  lemma FirstIsBest(pool: Pool, model: ModelName, now: Time, ids: seq<string>)
    requires Keyed(pool) && ListsTops(pool, model, now, ids)
    ensures IsFillFirst(pool, model, now, Picked(pool[ids[0]]))
  {
    assert ids[0] in ids;
    assert forall id :: id in ids ==> id == ids[0] || Before(ids[0], id);
  }

  lemma FirstIsSocketFirst(pool: Pool, model: ModelName, now: Time, ids: seq<string>, preferred: seq<string>)
    requires Keyed(pool) && ListsTops(pool, model, now, ids) && preferred != []
    requires if WithSocket(ids, pool) == {} then preferred == ids else Lists(preferred, WithSocket(ids, pool), Before)
    ensures preferred[0] in pool && IsSocketFirst(pool, model, now, Picked(pool[preferred[0]]))
  {
    var first := preferred[0];
    assert first in preferred && first in ids;
    TopIsOutcome(pool, model, now, first);
    hide IsTop, IsOutcome;
    assert forall id :: id in preferred ==> id == first || Before(first, id);
    forall id | id in ids
      ensures if pool[id].websockets == pool[first].websockets then id == first || Before(first, id) else pool[first].websockets {
      assert pool[id].websockets <==> id in WithSocket(ids, pool);
    }
  }

  /** FillFirstSelector.Pick: the websocket preference counts for one provider with a
      websocket downstream. */
  method FillFirstPick(pool: Pool, model: ModelName, now: Time, preferWebsocket: bool) returns (r: Outcome)
    requires Keyed(pool)
    ensures if preferWebsocket then IsSocketFirst(pool, model, now, r) else IsFillFirst(pool, model, now, r)
  {
    var ids, failure := GetAvailable(pool, model, now);
    if |ids| == 0 {
      return failure;
    }
    assert ListsTops(pool, model, now, ids);
    hide IsSocketFirst, IsFillFirst, IsTop, FreeIds;
    if preferWebsocket {
      var preferred := PreferSockets(ids, pool);
      FirstIsSocketFirst(pool, model, now, ids, preferred);
      return Picked(pool[preferred[0]]);
    }
    FirstIsBest(pool, model, now, ids);
    r := Picked(pool[ids[0]]);
  }

  method GatherCandidates(auths: map<string, Meta>, asked: set<string>, request: Request) returns (candidates: Pool)
    requires forall id :: id in auths ==> auths[id].auth.id == id
    ensures candidates == Candidates(auths, asked, request)
  {
    candidates := map[];
    var todo := auths.Keys;
    while todo != {}
      invariant todo <= auths.Keys
      invariant candidates == Candidates(auths - todo, asked, request)
    {
      hide IsCandidate;
      ghost var some := Witness(todo);
      var id :| id in todo;
      CandidatesStep(auths, todo, asked, request, id);
      CandidateRule(auths[id], asked, request);
      todo := todo - {id};
      var candidate := auths[id];
      if candidate.auth.disabled || (request.pinned != "" && candidate.auth.id != request.pinned) {
        continue;
      }
      if candidate.auth.provider == "" || candidate.auth.provider !in asked || candidate.auth.id in request.tried {
        continue;
      }
      if Canonical(request.model) != NO_MODEL && Canonical(request.model) !in candidate.supported {
        continue;
      }
      candidates := candidates[id := candidate.auth];
    }
    assert auths - todo == auths;
  }

  lemma CandidatesStep(auths: map<string, Meta>, todo: set<string>, asked: set<string>, request: Request, id: string)
    requires id in todo && todo <= auths.Keys
    ensures Candidates(auths - (todo - {id}), asked, request) ==
      if IsCandidate(auths[id], asked, request) then Candidates(auths - todo, asked, request)[id := auths[id].auth]
      else Candidates(auths - todo, asked, request)
  {
    hide IsCandidate;
  }

  lemma CandidateRule(meta: Meta, asked: set<string>, request: Request)
    ensures IsCandidate(meta, asked, request) <==>
      && !(meta.auth.disabled || (request.pinned != "" && meta.auth.id != request.pinned))
      && !(meta.auth.provider == "" || meta.auth.provider !in asked || meta.auth.id in request.tried)
      && !(Canonical(request.model) != NO_MODEL && Canonical(request.model) !in meta.supported)
  {
  }

  /** pickNextMixedLegacy with the fill-first selector, every requested provider having an
      executor. */
  method PickNextMixedLegacy(auths: map<string, Meta>, providers: seq<string>, request: Request, now: Time)
    returns (r: Outcome)
    requires forall id :: id in auths ==> auths[id].auth.id == id
    ensures var asked := set p | p in providers && p != "";
            if asked == {} then r == NoProvider
            else IsFillFirst(Candidates(auths, asked, request), request.model, now, r)
  {
    var asked := set p | p in providers && p != "";
    if |asked| == 0 {
      return NoProvider;
    }
    var candidates := GatherCandidates(auths, asked, request);
    if |candidates| == 0 {
      return NotFound;
    }
    r := FillFirstPick(candidates, request.model, now, false);
  }

  /** pickNextLegacy with the fill-first selector, the provider having an executor. */
  method PickNextLegacy(auths: map<string, Meta>, provider: string, request: Request, websocket: bool, now: Time)
    returns (r: Outcome)
    requires provider != "" && forall id :: id in auths ==> auths[id].auth.id == id
    ensures var pool := Candidates(auths, {provider}, request);
            if websocket && provider == CODEX then IsSocketFirst(pool, request.model, now, r)
            else IsFillFirst(pool, request.model, now, r)
  {
    var candidates := GatherCandidates(auths, {provider}, request);
    if |candidates| == 0 {
      return NotFound;
    }
    r := FillFirstPick(candidates, request.model, now, websocket && provider == CODEX);
  }
}
