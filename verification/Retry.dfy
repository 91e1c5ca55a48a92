/** The retry loops around one request (conductor_execute.go, conductor_result.go): rounds
    over the credentials, and waits between the rounds. */
module Retry {
  import opened Credentials
  import opened Ordering
  import opened Failures
  import opened Results
  import ShardIndex
  import Selection
  import Gathering

  datatype ExecError = ExecError(status: int, mentionsInvalidRequest: bool, message: string, retryAfter: Option<nat>)

  const NOT_FOUND := ExecError(0, false, "no auth available", None)

  const NO_PROVIDER := ExecError(0, false, "no provider supplied", None)

  /** isRequestInvalidError. */
  predicate RequestInvalid(e: ExecError) {
    (e.status == 400 && e.mentionsInvalidRequest) || e.status == 422
  }

  datatype Picked = Picked(id: string) | NoPick(error: ExecError)

  datatype Answer = Response | Faulty(error: ExecError) | Cancelled

  /** Everything the loops do not decide: which untried credential is picked, what
      upstream answers, when a wait is cancelled, and the clock. Every consultation has
      its own number, so any behaviour over time is an environment. */
  datatype Environment = Environment(
    pick: (nat, set<string>) -> Picked,
    answer: nat -> Answer,
    cancels: nat -> bool,
    now: nat -> Time)

  datatype Outcome = Done | Stopped(error: ExecError) | Aborted

  /** The credentials of the requested providers. */
  function Pool(auths: map<string, Auth>, providers: set<string>): set<string> {
    set id | id in auths && auths[id].provider in providers
  }

  /** What the scheduler or the rescan knows when it is asked: the manager's credentials
      under their IDs, and which of them this request has tried. */
  ghost predicate Asks(known: Gathering.Known, order: seq<string>, request: Selection.Request, auths: map<string, Auth>,
                       providers: set<string>, tried: set<string>) {
    && Gathering.Members(order) == providers && request.tried == tried
    && forall id :: id in known ==>
         id != "" && known[id].auth.id == id && id in auths && known[id].auth.provider == auths[id].provider
  }

  /** A pick of the scheduler, under either strategy, or of the rescan. */
  ghost predicate IsAnswer(auths: map<string, Auth>, providers: set<string>, tried: set<string>, id: string) {
    || (exists known, order, request, strategy: ShardIndex.Strategy, now: Time, exact: bool, auth: Auth ::
          && Asks(known, order, request, auths, providers, tried) && auth.id == id
          && Gathering.Answers(known, order, request, strategy, now, exact, Selection.Picked(auth)))
    || (exists known, order, request, now: Time, auth: Auth ::
          && Asks(known, order, request, auths, providers, tried) && auth.id == id
          && Selection.IsFillFirst(Selection.Candidates(known, providers, request), request.model, now, Selection.Picked(auth)))
  }

  /** So it is an untried credential of the requested providers. */
  lemma AnswersAreUntried(auths: map<string, Auth>, providers: set<string>, tried: set<string>, id: string)
    requires IsAnswer(auths, providers, tried, id)
    ensures id in Pool(auths, providers) && id !in tried && id != ""
  {
    hide Gathering.Answers, Selection.IsFillFirst, Selection.Candidates, Gathering.Members;
    if known, order, request, strategy: ShardIndex.Strategy, now: Time, exact: bool, auth: Auth :|
      && Asks(known, order, request, auths, providers, tried) && auth.id == id
      && Gathering.Answers(known, order, request, strategy, now, exact, Selection.Picked(auth)) {
      Gathering.AnswerIsUntried(known, order, request, strategy, now, exact, auth);
    } else {
      var known, order, request, now: Time, auth: Auth :|
        && Asks(known, order, request, auths, providers, tried) && auth.id == id
        && Selection.IsFillFirst(Selection.Candidates(known, providers, request), request.model, now, Selection.Picked(auth));
      Selection.FillFirstIsUntried(known, providers, request, now, auth);
    }
  }

  /** Picks are picks of the scheduler or the rescan, and the clock has started. */
  ghost predicate Proper(env: Environment, auths: map<string, Auth>, providers: set<string>) {
    && (forall n, tried :: env.pick(n, tried).Picked? ==> IsAnswer(auths, providers, tried, env.pick(n, tried).id))
    && forall n :: env.now(n) > 0
  }

  /** Results do not change what a pick may be. */
  lemma ProperStays(env: Environment, before: map<string, Auth>, after: map<string, Auth>, providers: set<string>)
    requires Proper(env, before, providers) && SameSetup(before, after)
    ensures Proper(env, after, providers)
  {
    forall n, tried | env.pick(n, tried).Picked? ensures IsAnswer(after, providers, tried, env.pick(n, tried).id) {
      AnswerStays(before, after, providers, tried, env.pick(n, tried).id);
    }
  }

  lemma AnswerStays(before: map<string, Auth>, after: map<string, Auth>, providers: set<string>, tried: set<string>, id: string)
    requires IsAnswer(before, providers, tried, id) && SameSetup(before, after)
    ensures IsAnswer(after, providers, tried, id)
  {
    hide Gathering.Answers, Selection.IsFillFirst, Selection.Candidates, Gathering.Members;
    if known, order, request, strategy: ShardIndex.Strategy, now: Time, exact: bool, auth: Auth :|
      && Asks(known, order, request, before, providers, tried) && auth.id == id
      && Gathering.Answers(known, order, request, strategy, now, exact, Selection.Picked(auth)) {
      assert Asks(known, order, request, after, providers, tried);
    } else {
      var known, order, request, now: Time, auth: Auth :|
        && Asks(known, order, request, before, providers, tried) && auth.id == id
        && Selection.IsFillFirst(Selection.Candidates(known, providers, request), request.model, now, Selection.Picked(auth));
      assert Asks(known, order, request, after, providers, tried);
    }
  }

  function EffectiveRetry(auth: Auth, defaultRetry: int): int {
    var wanted := if auth.retryOverride.Some? then auth.retryOverride.value else if defaultRetry < 0 then 0 else defaultRetry;
    if wanted < 0 then 0 else wanted
  }

  /** The same credentials of the same providers with the same retry settings. */
  ghost predicate SameSetup(before: map<string, Auth>, after: map<string, Auth>) {
    && before.Keys == after.Keys
    && forall id :: id in before ==>
         after[id].provider == before[id].provider && after[id].retryOverride == before[id].retryOverride && after[id].id == before[id].id
  }

  lemma MarkedKeepsSetup(before: Auth, after: Auth, result: Result, disableCooling: bool, now: Time)
    requires IsMarked(before, after, result, disableCooling, now)
    ensures after.provider == before.provider && after.retryOverride == before.retryOverride && after.id == before.id
  {
    hide IsAggregate, FailedState, RetryTime, NextLevel;
    if result.model != NO_MODEL {
      var entered := Entered(before, result, disableCooling, now);
      AggregateKeepsSetup(entered, after.(status := entered.status, lastError := entered.lastError), now);
    }
  }

  lemma AggregateKeepsSetup(before: Auth, after: Auth, now: Time)
    requires IsAggregate(before, after, now)
    ensures after.provider == before.provider && after.retryOverride == before.retryOverride && after.id == before.id
  {
  }

  lemma SamePool(before: map<string, Auth>, after: map<string, Auth>, providers: set<string>)
    requires SameSetup(before, after)
    ensures Pool(before, providers) == Pool(after, providers)
  {
  }

  /** The credential's state for the model says that its last call failed, or succeeded. */
  ghost predicate Noted(auths: map<string, Auth>, id: string, model: ModelName, failed: bool) {
    && id in auths && model in auths[id].modelStates
    && auths[id].modelStates[model].status == if failed then Status.Error else Active
  }

  lemma MarkedIsNoted(before: Auth, after: Auth, result: Result, disableCooling: bool, now: Time)
    requires IsMarked(before, after, result, disableCooling, now) && result.model != NO_MODEL
    ensures result.model in after.modelStates
    ensures after.modelStates[result.model].status == if result.success then Active else Status.Error
  {
    hide IsAggregate, RetryTime, NextLevel;
    MarkedStates(before, after, result, disableCooling, now);
  }

  /** What one answer makes of the manager's credentials: a cancelled call leaves them, any
      other is a result about the called one. */
  ghost predicate CallMarks(before: map<string, Auth>, after: map<string, Auth>, id: string, model: ModelName, answer: Answer, now: Time,
                            quotaCooldownDisabled: bool) {
    match answer
    case Cancelled => after == before
    case Response =>
      && id in before && id in after && after == before[id := after[id]]
      && IsMarked(before[id], after[id], Result(id, model, true, None, None), CoolingDisabled(before[id], quotaCooldownDisabled), now)
    case Faulty(error) =>
      && id in before && id in after && after == before[id := after[id]]
      && IsMarked(before[id], after[id],
                  Result(id, model, false, Some(Credentials.Failure(error.status, error.message)), error.retryAfter),
                  CoolingDisabled(before[id], quotaCooldownDisabled), now)
  }

  method Mark(m: Manager, id: string, model: ModelName, error: Option<ExecError>, now: Time)
    requires m.Valid() && now > 0 && id in m.auths && id != "" && model != NO_MODEL
    modifies m`auths
    ensures m.Valid() && SameSetup(old(m.auths), m.auths)
    ensures CallMarks(old(m.auths), m.auths, id, model, if error.Some? then Faulty(error.value) else Response, now, m.quotaCooldownDisabled)
    ensures Noted(m.auths, id, model, error.Some?)
    ensures forall other, failed :: other != id && Noted(old(m.auths), other, model, failed) ==> Noted(m.auths, other, model, failed)
  {
    hide IsMarked, LevelsBounded;
    var failure := if error.Some? then Some(Credentials.Failure(error.value.status, error.value.message)) else None;
    var result := Result(id, model, error.None?, failure, if error.Some? then error.value.retryAfter else None);
    ghost var before := m.auths;
    var notice := m.MarkResult(result, now);
    ghost var disable := CoolingDisabled(before[id], m.quotaCooldownDisabled);
    MarkedKeepsSetup(before[id], m.auths[id], result, disable, now);
    MarkedIsNoted(before[id], m.auths[id], result, disable, now);
  }

  /** How many credentials one round may use. */
  function RoundLimit(pool: set<string>, maxRetryCredentials: int): nat {
    if maxRetryCredentials > 0 && maxRetryCredentials < |pool| then maxRetryCredentials else |pool|
  }

  ghost predicate AllNoted(auths: map<string, Auth>, calls: seq<string>, model: ModelName) {
    forall id :: id in calls ==> Noted(auths, id, model, true)
  }

  /** All calls are noted as failed, but for the last one where the round ends with it. */
  ghost predicate Account(auths: map<string, Auth>, calls: seq<string>, model: ModelName, outcome: Outcome) {
    if outcome.Stopped? then AllNoted(auths, calls, model)
    else
      && calls != [] && AllNoted(auths, calls[..|calls| - 1], model)
      && (outcome.Done? ==> Noted(auths, calls[|calls| - 1], model, false))
  }

  /** The answer that ended the round, or the refusal: what is reported is the last thing
      that went wrong upstream, and the refusal only where nothing was called. */
  ghost predicate Reported(env: Environment, start: nat, step: nat, calls: seq<string>, outcome: Outcome) {
    match outcome
    case Done => start < step && env.answer(step - 1) == Response
    case Aborted => start < step && env.answer(step - 1) == Cancelled
    case Stopped(error) =>
      if calls == [] then error == NOT_FOUND || exists n, tried :: start <= n < step && env.pick(n, tried) == NoPick(error)
      else exists n :: start <= n < step && env.answer(n) == Faulty(error)
  }

  // ----- the course of a round

  /** One round: the credentials picked, in order, what the manager held before and after
      each of them, how the round ended, and when. */
  datatype Round = Round(start: nat, picks: seq<string>, states: seq<map<string, Auth>>, outcome: Outcome, end: nat)

  function Tried(picks: seq<string>): set<string> {
    set id | id in picks
  }

  /** When credential number `k` is picked; its call, if it has a model to be called for,
      is the next step. */
  function PickStep(start: nat, k: nat, model: ModelName): nat {
    start + if model == NO_MODEL then k else 2 * k
  }

  /** A failure that is not the request's own fault. */
  predicate GoesOn(a: Answer) {
    a.Faulty? && a.error.status != 422 && !(a.error.status == 400 && a.error.mentionsInvalidRequest)
  }

  /** The last failure, once something was called. */
  function LastFault(env: Environment, start: nat, n: nat, model: ModelName): Option<ExecError> {
    if model == NO_MODEL || n == 0 then None
    else match env.answer(PickStep(start, n, model) - 1)
      case Faulty(error) => Some(error)
      case _ => None
  }

  /** Each credential is the pick for those picked before it, and called in turn; all
      answers but the last let the round go on. */
  ghost predicate Proceeds(env: Environment, start: nat, picks: seq<string>, states: seq<map<string, Auth>>, model: ModelName, limit: int,
                           quotaCooldownDisabled: bool) {
    |states| == |picks| + 1 && forall k :: 0 <= k < |picks| ==> PickedAt(env, start, picks, states, model, limit, quotaCooldownDisabled, k)
  }

  ghost predicate PickedAt(env: Environment, start: nat, picks: seq<string>, states: seq<map<string, Auth>>, model: ModelName, limit: int,
                           quotaCooldownDisabled: bool, k: nat)
    requires k < |picks| && |states| == |picks| + 1
  {
    && env.pick(PickStep(start, k, model), Tried(picks[..k])) == Picked(picks[k])
    && (limit > 0 ==> k < limit)
    && if model == NO_MODEL then states[k + 1] == states[k]
       else
         var at := PickStep(start, k, model) + 1;
         && (k < |picks| - 1 ==> GoesOn(env.answer(at)))
         && CallMarks(states[k], states[k + 1], picks[k], model, env.answer(at), env.now(at), quotaCooldownDisabled)
  }

  /** A round ends with the answer that does not let it go on, or with the limit reached, or
      with a refused pick; what is reported is that answer, else the last failure, and the
      refusal only where nothing was called. */
  ghost predicate Ends(env: Environment, r: Round, model: ModelName, limit: int) {
    var n := |r.picks|;
    var at := PickStep(r.start, n, model);
    if model != NO_MODEL && n > 0 && !GoesOn(env.answer(at - 1)) then
      && r.end == at
      && r.outcome == match env.answer(at - 1) { case Response => Done case Cancelled => Aborted case Faulty(error) => Stopped(error) }
    else
      var fault := LastFault(env, r.start, n, model);
      if limit > 0 && n >= limit then
        r.end == at && r.outcome == Stopped(if fault.Some? then fault.value else NOT_FOUND)
      else
        var picked := env.pick(at, Tried(r.picks));
        picked.NoPick? && r.end == at + 1 && r.outcome == Stopped(if fault.Some? then fault.value else picked.error)
  }

  ghost predicate Traced(env: Environment, r: Round, model: ModelName, limit: int, quotaCooldownDisabled: bool) {
    Proceeds(env, r.start, r.picks, r.states, model, limit, quotaCooldownDisabled) && Ends(env, r, model, limit)
  }

  /** The environment determines a round: whom it calls, how it ends, and when. */
  lemma TraceUnique(env: Environment, r: Round, s: Round, model: ModelName, limit: int, quotaCooldownDisabled: bool)
    requires Traced(env, r, model, limit, quotaCooldownDisabled) && Traced(env, s, model, limit, quotaCooldownDisabled) && r.start == s.start
    ensures r.picks == s.picks && r.outcome == s.outcome && r.end == s.end
  {
    hide CallMarks;
    var least := if |r.picks| <= |s.picks| then |r.picks| else |s.picks|;
    SamePrefix(env, r, s, model, limit, quotaCooldownDisabled, least);
    NotShorter(env, r, s, model, limit, quotaCooldownDisabled);
    NotShorter(env, s, r, model, limit, quotaCooldownDisabled);
    assert r.picks[..|r.picks|] == r.picks && s.picks[..|s.picks|] == s.picks;
  }

  lemma {:induction false} SamePrefix(env: Environment, r: Round, s: Round, model: ModelName, limit: int, quotaCooldownDisabled: bool, k: nat)
    requires Traced(env, r, model, limit, quotaCooldownDisabled) && Traced(env, s, model, limit, quotaCooldownDisabled) && r.start == s.start
    requires k <= |r.picks| && k <= |s.picks|
    ensures r.picks[..k] == s.picks[..k]
    decreases k
  {
    hide CallMarks, Ends;
    if k > 0 {
      SamePrefix(env, r, s, model, limit, quotaCooldownDisabled, k - 1);
      assert PickedAt(env, r.start, r.picks, r.states, model, limit, quotaCooldownDisabled, k - 1);
      assert PickedAt(env, s.start, s.picks, s.states, model, limit, quotaCooldownDisabled, k - 1);
      assert r.picks[..k] == r.picks[..k - 1] + [r.picks[k - 1]] && s.picks[..k] == s.picks[..k - 1] + [s.picks[k - 1]];
    }
  }

  /** What lets a round pick credential number `n`. */
  lemma StillGoing(env: Environment, s: Round, model: ModelName, limit: int, quotaCooldownDisabled: bool, n: nat)
    requires Proceeds(env, s.start, s.picks, s.states, model, limit, quotaCooldownDisabled) && n < |s.picks|
    ensures env.pick(PickStep(s.start, n, model), Tried(s.picks[..n])).Picked? && (limit > 0 ==> n < limit)
    ensures model != NO_MODEL && n > 0 ==> GoesOn(env.answer(PickStep(s.start, n, model) - 1))
  {
    hide CallMarks, GoesOn;
    assert PickedAt(env, s.start, s.picks, s.states, model, limit, quotaCooldownDisabled, n);
    if n > 0 {
      assert PickedAt(env, s.start, s.picks, s.states, model, limit, quotaCooldownDisabled, n - 1);
    }
  }

  lemma NotShorter(env: Environment, r: Round, s: Round, model: ModelName, limit: int, quotaCooldownDisabled: bool)
    requires Traced(env, r, model, limit, quotaCooldownDisabled) && Traced(env, s, model, limit, quotaCooldownDisabled) && r.start == s.start
    ensures |r.picks| >= |s.picks|
  {
    hide CallMarks;
    var n := |r.picks|;
    if n < |s.picks| {
      SamePrefix(env, r, s, model, limit, quotaCooldownDisabled, n);
      assert r.picks[..n] == r.picks;
      StillGoing(env, s, model, limit, quotaCooldownDisabled, n);
    }
  }

  /** A call ends the round, or the next credential has its turn. */
  datatype Called = Over(outcome: Outcome) | Next(error: ExecError)

  method CallOne(m: Manager, env: Environment, step: nat, ghost auths: map<string, Auth>, ghost providers: set<string>,
                 id: string, model: ModelName, ghost calls: seq<string>)
    returns (called: Called)
    requires m.Valid() && Proper(env, auths, providers) && id in m.auths && id != "" && model != NO_MODEL
    requires AllNoted(m.auths, calls, model) && id !in calls
    modifies m`auths
    ensures m.Valid() && SameSetup(old(m.auths), m.auths)
    ensures match env.answer(step)
            case Cancelled => called == Over(Aborted)
            case Response => called == Over(Done)
            case Faulty(error) => called == if RequestInvalid(error) then Over(Stopped(error)) else Next(error)
    ensures CallMarks(old(m.auths), m.auths, id, model, env.answer(step), env.now(step), m.quotaCooldownDisabled)
    ensures called.Over? ==> Account(m.auths, calls + [id], model, called.outcome)
    ensures called.Next? ==> AllNoted(m.auths, calls + [id], model)
  {
    hide Proper, Noted, SameSetup, IsMarked;
    SameAsItself(m.auths);
    ClockStarted(env, auths, providers, step);
    assert (calls + [id])[..|calls|] == calls;
    match env.answer(step)
    case Cancelled =>
      return Over(Aborted);
    case Faulty(error) =>
      Mark(m, id, model, Some(error), env.now(step));
      return if RequestInvalid(error) then Over(Stopped(error)) else Next(error);
    case Response =>
      Mark(m, id, model, None, env.now(step));
      return Over(Done);
  }

  /** One round, executeMixedOnce: every credential of the pool is called at most once,
      and no more of them than configured; each call is noted as it ended. */
  method ExecuteMixedOnce(m: Manager, env: Environment, start: nat, providers: set<string>, model: ModelName, maxRetryCredentials: int)
    returns (outcome: Outcome, calls: seq<string>, step: nat, ghost picks: seq<string>, ghost states: seq<map<string, Auth>>)
    requires m.Valid() && Proper(env, m.auths, providers)
    modifies m`auths
    ensures m.Valid() && SameSetup(old(m.auths), m.auths)
    ensures Traced(env, Round(start, picks, states, outcome, step), model, maxRetryCredentials, m.quotaCooldownDisabled)
    ensures states[0] == old(m.auths) && states[|picks|] == m.auths && calls == if model == NO_MODEL then [] else picks
    ensures Distinct(calls) && forall id :: id in calls ==> id in Pool(m.auths, providers)
    ensures |calls| <= RoundLimit(Pool(old(m.auths), providers), maxRetryCredentials)
    ensures model == NO_MODEL ==> calls == []
    ensures Account(m.auths, calls, model, outcome) && Reported(env, start, step, calls, outcome)
  {
    hide Proper, SameSetup, Pool, RequestInvalid, AllNoted, Distinct, Account, Reported, Proceeds, Ends, Traced, CallMarks, Tried,
         LastFault, GoesOn, InRound, TriedSoFar;
    SameAsItself(m.auths);
    NothingCalled(m.auths, model);
    ghost var auths, pool := m.auths, Pool(m.auths, providers);
    var tried: set<string> := {};
    var lastErr: Option<ExecError> := None;
    calls, step, picks, states := [], start, [], [m.auths];
    NothingPicked(env, start, m.auths, model, maxRetryCredentials, m.quotaCooldownDisabled);
    NothingTried(pool, model, maxRetryCredentials);
    while true
      invariant m.Valid() && SameSetup(old(m.auths), m.auths) && step == PickStep(start, |picks|, model)
      invariant TriedSoFar(tried, picks, calls, pool, model, maxRetryCredentials) && AllNoted(m.auths, calls, model)
      invariant InRound(env, start, picks, states, model, maxRetryCredentials, m.quotaCooldownDisabled, lastErr)
      invariant |states| == |picks| + 1 && states[0] == old(m.auths) && states[|picks|] == m.auths
      decreases |pool| - |tried|
    {
      TriedMeans(tried, picks, calls, pool, model, maxRetryCredentials);
      SamePool(old(m.auths), m.auths, providers);
      if maxRetryCredentials > 0 && |tried| >= maxRetryCredentials {
        outcome := Stopped(if lastErr.Some? then lastErr.value else NOT_FOUND);
        RoundStops(env, Round(start, picks, states, outcome, step), model, maxRetryCredentials, m.quotaCooldownDisabled, lastErr);
        StopAccounts(m.auths, calls, model, outcome);
        return;
      }
      var picked := env.pick(step, tried);
      step := step + 1;
      if picked.NoPick? {
        outcome := Stopped(if lastErr.Some? then lastErr.value else picked.error);
        RoundStops(env, Round(start, picks, states, outcome, step), model, maxRetryCredentials, m.quotaCooldownDisabled, lastErr);
        StopAccounts(m.auths, calls, model, outcome);
        return;
      }
      var id := picked.id;
      PickIsFresh(env, auths, providers, step - 1, tried);
      TriedOneMore(tried, picks, calls, pool, model, maxRetryCredentials, id);
      tried := tried + {id};
      ghost var before := m.auths;
      if model == NO_MODEL {
        PassedOver(env, start, picks, states, model, maxRetryCredentials, m.quotaCooldownDisabled, lastErr, id);
        picks, states := picks + [id], states + [m.auths];
      } else {
        InPool(m.auths, providers, id);
        var called := CallOne(m, env, step, auths, providers, id, model, calls);
        SetupChain(old(m.auths), before, m.auths);
        SamePool(old(m.auths), m.auths, providers);
        OneMorePick(env, start, picks, states, model, maxRetryCredentials, m.quotaCooldownDisabled, lastErr, id, m.auths);
        picks, states := picks + [id], states + [m.auths];
        calls, step := calls + [id], step + 1;
        if called.Over? {
          outcome := called.outcome;
          TriedMeans(tried, picks, calls, pool, model, maxRetryCredentials);
          RoundIsOver(env, Round(start, picks, states, outcome, step), model, maxRetryCredentials, m.quotaCooldownDisabled);
          return;
        }
        lastErr := Some(called.error);
        RoundGoesOn(env, start, picks, states, model, maxRetryCredentials, m.quotaCooldownDisabled, called.error);
      }
    }
  }

  /** The picks of a round are different credentials of the pool, as many as the round may
      try; each of them is called, where there is a model to call. */
  ghost predicate TriedSoFar(tried: set<string>, picks: seq<string>, calls: seq<string>, pool: set<string>, model: ModelName, limit: int) {
    && tried <= pool && tried == Tried(picks) && |tried| == |picks| && (limit > 0 ==> |tried| <= limit)
    && Distinct(picks) && calls == if model == NO_MODEL then [] else picks
  }

  lemma NothingTried(pool: set<string>, model: ModelName, limit: int)
    ensures TriedSoFar({}, [], [], pool, model, limit)
  {
  }

  lemma TriedOneMore(tried: set<string>, picks: seq<string>, calls: seq<string>, pool: set<string>, model: ModelName, limit: int, id: string)
    requires TriedSoFar(tried, picks, calls, pool, model, limit) && id in pool && id !in tried && (limit > 0 ==> |tried| < limit)
    ensures TriedSoFar(tried + {id}, picks + [id], if model == NO_MODEL then [] else calls + [id], pool, model, limit)
    ensures |tried| < |tried + {id}| <= |pool|
  {
    Within(tried + {id}, pool);
  }

  lemma TriedMeans(tried: set<string>, picks: seq<string>, calls: seq<string>, pool: set<string>, model: ModelName, limit: int)
    requires TriedSoFar(tried, picks, calls, pool, model, limit)
    ensures tried == Tried(picks) && |tried| == |picks| && calls == if model == NO_MODEL then [] else picks
    ensures Distinct(calls) && (forall id :: id in calls ==> id in tried && id in pool) && |calls| <= RoundLimit(pool, limit)
  {
    Within(tried, pool);
  }

  lemma StopAccounts(auths: map<string, Auth>, calls: seq<string>, model: ModelName, outcome: Outcome)
    requires outcome.Stopped? && AllNoted(auths, calls, model)
    ensures Account(auths, calls, model, outcome)
  {
  }

  /** The end of a round reports what went wrong last. */
  lemma EndIsReported(env: Environment, r: Round, model: ModelName, limit: int)
    requires Ends(env, r, model, limit)
    ensures Reported(env, r.start, r.end, if model == NO_MODEL then [] else r.picks, r.outcome)
  {
    var at := PickStep(r.start, |r.picks|, model);
    assert model != NO_MODEL && r.picks != [] ==> r.start <= at - 1 < r.end;
  }

  /** The round so far, when it is to go on. */
  ghost predicate InRound(env: Environment, start: nat, picks: seq<string>, states: seq<map<string, Auth>>, model: ModelName, limit: int,
                          quotaCooldownDisabled: bool, lastErr: Option<ExecError>) {
    && Proceeds(env, start, picks, states, model, limit, quotaCooldownDisabled)
    && (model != NO_MODEL && picks != [] ==> GoesOn(env.answer(PickStep(start, |picks|, model) - 1)))
    && lastErr == LastFault(env, start, |picks|, model)
  }

  lemma NothingPicked(env: Environment, start: nat, auths: map<string, Auth>, model: ModelName, limit: int, quotaCooldownDisabled: bool)
    ensures InRound(env, start, [], [auths], model, limit, quotaCooldownDisabled, None) && Tried([]) == {}
  {
  }

  lemma OneMorePick(env: Environment, start: nat, picks: seq<string>, states: seq<map<string, Auth>>, model: ModelName, limit: int,
                    quotaCooldownDisabled: bool, lastErr: Option<ExecError>, id: string, auths: map<string, Auth>)
    requires InRound(env, start, picks, states, model, limit, quotaCooldownDisabled, lastErr)
    requires env.pick(PickStep(start, |picks|, model), Tried(picks)) == Picked(id) && (limit > 0 ==> |picks| < limit)
    requires if model == NO_MODEL then auths == states[|picks|]
             else
               var at := PickStep(start, |picks|, model) + 1;
               CallMarks(states[|picks|], auths, id, model, env.answer(at), env.now(at), quotaCooldownDisabled)
    ensures Proceeds(env, start, picks + [id], states + [auths], model, limit, quotaCooldownDisabled)
    ensures model == NO_MODEL ==> lastErr == None
  {
    hide CallMarks, GoesOn;
    var more, also := picks + [id], states + [auths];
    forall k | 0 <= k < |more| ensures PickedAt(env, start, more, also, model, limit, quotaCooldownDisabled, k) {
      assert more[..k] == picks[..k];
      if k < |picks| {
        assert PickedAt(env, start, picks, states, model, limit, quotaCooldownDisabled, k);
        assert also[k] == states[k] && also[k + 1] == states[k + 1];
        if model != NO_MODEL && k == |picks| - 1 {
          assert PickStep(start, |picks|, model) - 1 == PickStep(start, k, model) + 1;
        }
      } else {
        assert picks[..k] == picks;
      }
    }
  }

  /** Without a model to call, a picked credential is passed over. */
  lemma PassedOver(env: Environment, start: nat, picks: seq<string>, states: seq<map<string, Auth>>, model: ModelName, limit: int,
                   quotaCooldownDisabled: bool, lastErr: Option<ExecError>, id: string)
    requires InRound(env, start, picks, states, model, limit, quotaCooldownDisabled, lastErr) && model == NO_MODEL
    requires env.pick(PickStep(start, |picks|, model), Tried(picks)) == Picked(id) && (limit > 0 ==> |picks| < limit)
    ensures InRound(env, start, picks + [id], states + [states[|picks|]], model, limit, quotaCooldownDisabled, lastErr)
  {
    OneMorePick(env, start, picks, states, model, limit, quotaCooldownDisabled, lastErr, id, states[|picks|]);
  }

  lemma RoundGoesOn(env: Environment, start: nat, picks: seq<string>, states: seq<map<string, Auth>>, model: ModelName, limit: int,
                    quotaCooldownDisabled: bool, error: ExecError)
    requires Proceeds(env, start, picks, states, model, limit, quotaCooldownDisabled) && picks != [] && model != NO_MODEL
    requires env.answer(PickStep(start, |picks|, model) - 1) == Faulty(error) && !RequestInvalid(error)
    ensures InRound(env, start, picks, states, model, limit, quotaCooldownDisabled, Some(error))
  {
    hide Proceeds;
  }

  lemma RoundStops(env: Environment, r: Round, model: ModelName, limit: int, quotaCooldownDisabled: bool, lastErr: Option<ExecError>)
    requires InRound(env, r.start, r.picks, r.states, model, limit, quotaCooldownDisabled, lastErr)
    requires var at := PickStep(r.start, |r.picks|, model);
             if limit > 0 && |r.picks| >= limit then r.end == at && r.outcome == Stopped(if lastErr.Some? then lastErr.value else NOT_FOUND)
             else
               var picked := env.pick(at, Tried(r.picks));
               picked.NoPick? && r.end == at + 1 && r.outcome == Stopped(if lastErr.Some? then lastErr.value else picked.error)
    ensures Traced(env, r, model, limit, quotaCooldownDisabled)
    ensures Reported(env, r.start, r.end, if model == NO_MODEL then [] else r.picks, r.outcome)
  {
    hide Proceeds, Reported;
    assert Ends(env, r, model, limit);
    EndIsReported(env, r, model, limit);
  }

  lemma RoundIsOver(env: Environment, r: Round, model: ModelName, limit: int, quotaCooldownDisabled: bool)
    requires Proceeds(env, r.start, r.picks, r.states, model, limit, quotaCooldownDisabled) && r.picks != [] && model != NO_MODEL
    requires r.end == PickStep(r.start, |r.picks|, model)
    requires match env.answer(r.end - 1)
             case Cancelled => r.outcome == Aborted
             case Response => r.outcome == Done
             case Faulty(error) => r.outcome == Stopped(error) && RequestInvalid(error)
    ensures Traced(env, r, model, limit, quotaCooldownDisabled)
    ensures Reported(env, r.start, r.end, if model == NO_MODEL then [] else r.picks, r.outcome)
  {
    hide Proceeds, Reported;
    assert Ends(env, r, model, limit);
    EndIsReported(env, r, model, limit);
  }

  lemma NothingCalled(auths: map<string, Auth>, model: ModelName)
    ensures AllNoted(auths, [], model) && Distinct<string>([])
  {
  }

  lemma InPool(auths: map<string, Auth>, providers: set<string>, id: string)
    requires id in Pool(auths, providers)
    ensures id in auths
  {
  }

  lemma PickIsFresh(env: Environment, auths: map<string, Auth>, providers: set<string>, n: nat, tried: set<string>)
    requires Proper(env, auths, providers) && env.pick(n, tried).Picked?
    ensures var id := env.pick(n, tried).id; id in Pool(auths, providers) && id !in tried && id != ""
  {
    hide IsAnswer;
    AnswersAreUntried(auths, providers, tried, env.pick(n, tried).id);
  }

  lemma ClockStarted(env: Environment, auths: map<string, Auth>, providers: set<string>, n: nat)
    requires Proper(env, auths, providers)
    ensures env.now(n) > 0
  {
  }

  // ----- waiting

  /** The credential may be waited for in this attempt. */
  predicate Awaited(auth: Auth, defaultRetry: int, model: ModelName, attempt: nat, now: Time) {
    var v := IsBlocked(auth, model, now);
    attempt < EffectiveRetry(auth, defaultRetry) && v.blocked && v.next != 0 && !v.reason.Off?
  }

  /** closestCooldownWait: the shortest wait for an awaited credential of the providers. */
  ghost predicate IsClosest(auths: map<string, Auth>, pool: set<string>, defaultRetry: int, model: ModelName, attempt: nat, now: Time,
                            wait: nat, found: bool) {
    && (found <==> exists id :: id in pool && id in auths && Awaited(auths[id], defaultRetry, model, attempt, now))
    && (found ==> exists id :: id in pool && id in auths && Awaited(auths[id], defaultRetry, model, attempt, now)
                               && now + wait == IsBlocked(auths[id], model, now).next)
    && (found ==> forall id :: id in pool && id in auths && Awaited(auths[id], defaultRetry, model, attempt, now) ==>
                    now + wait <= IsBlocked(auths[id], model, now).next)
  }

  lemma AwaitedLater(auth: Auth, defaultRetry: int, model: ModelName, attempt: nat, now: Time)
    requires Awaited(auth, defaultRetry, model, attempt, now)
    ensures IsBlocked(auth, model, now).next > now
  {
  }

  /** A credential that is blocked is free when the wait for it is over, unless its quota
      recovers before its retry time. */
  lemma WaitFrees(auth: Auth, model: ModelName, now: Time)
    requires IsBlocked(auth, model, now).blocked && !IsBlocked(auth, model, now).reason.Off?
    ensures IsBlocked(auth, model, IsBlocked(auth, model, now).next).blocked
            <==> (var quota := if model == NO_MODEL then auth.quota else StateFor(auth, model).value.quota;
                  var retry := if model == NO_MODEL then auth.nextRetryAfter else StateFor(auth, model).value.nextRetryAfter;
                  now < quota.nextRecoverAt < retry)
  {
  }

  method ClosestCooldownWait(auths: map<string, Auth>, providers: set<string>, defaultRetry: int, model: ModelName, attempt: nat, now: Time)
    returns (minWait: nat, found: bool)
    ensures IsClosest(auths, Pool(auths, providers), defaultRetry, model, attempt, now, minWait, found)
  {
    hide Awaited, IsClosest, IsBlocked;
    minWait, found := 0, false;
    var todo := auths.Keys;
    ghost var seen: set<string> := {};
    NothingCloser(auths, defaultRetry, model, attempt, now);
    while todo != {}
      invariant todo <= auths.Keys && seen == Pool(auths, providers) - todo
      invariant IsClosest(auths, seen, defaultRetry, model, attempt, now, minWait, found)
    {
      ghost var some := Witness(todo);
      var id :| id in todo;
      var auth := auths[id];
      ghost var before, wasWait, wasFound := seen, minWait, found;
      if auth.provider in providers {
        minWait, found := Closer(auth, defaultRetry, model, attempt, now, minWait, found);
        OneMoreCloser(auths, before, defaultRetry, model, attempt, now, wasWait, wasFound, id, minWait, found);
        seen := seen + {id};
      }
      todo := todo - {id};
    }
    assert Pool(auths, providers) - {} == Pool(auths, providers);
  }

  /** One step of the search: an awaited credential with a shorter wait takes over. */
  method Closer(auth: Auth, defaultRetry: int, model: ModelName, attempt: nat, now: Time, minWait: nat, found: bool)
    returns (wait: nat, any: bool)
    ensures if Awaited(auth, defaultRetry, model, attempt, now) then
              any && (if !found || IsBlocked(auth, model, now).next < now + minWait then now + wait == IsBlocked(auth, model, now).next
                      else wait == minWait)
            else wait == minWait && any == found
  {
    wait, any := minWait, found;
    var effectiveRetry := if defaultRetry < 0 then 0 else defaultRetry;
    if auth.retryOverride.Some? { effectiveRetry := auth.retryOverride.value; }
    if effectiveRetry < 0 { effectiveRetry := 0; }
    if attempt >= effectiveRetry { return; }
    var v := IsBlocked(auth, model, now);
    if !v.blocked || v.next == 0 || v.reason.Off? { return; }
    if v.next < now { return; }
    if !found || v.next - now < minWait {
      wait := v.next - now;
    }
    any := true;
  }

  lemma NothingCloser(auths: map<string, Auth>, defaultRetry: int, model: ModelName, attempt: nat, now: Time)
    ensures IsClosest(auths, {}, defaultRetry, model, attempt, now, 0, false)
  {
  }

  lemma OneMoreCloser(auths: map<string, Auth>, seen: set<string>, defaultRetry: int, model: ModelName, attempt: nat, now: Time,
                      wait: nat, found: bool, id: string, wait': nat, found': bool)
    requires IsClosest(auths, seen, defaultRetry, model, attempt, now, wait, found) && id in auths
    requires if Awaited(auths[id], defaultRetry, model, attempt, now) then
               found' && (if !found || IsBlocked(auths[id], model, now).next < now + wait
                          then now + wait' == IsBlocked(auths[id], model, now).next else wait' == wait)
             else wait' == wait && found' == found
    ensures IsClosest(auths, seen + {id}, defaultRetry, model, attempt, now, wait', found')
  {
    hide Awaited, IsBlocked;
  }

  /** shouldRetryAfterError. */
  method ShouldRetryAfterError(auths: map<string, Auth>, error: ExecError, attempt: nat, providers: set<string>, defaultRetry: int,
                               model: ModelName, maxWait: int, now: Time)
    returns (wait: nat, retry: bool)
    ensures retry ==> 0 < wait <= maxWait && error.status != 200 && !RequestInvalid(error)
    ensures retry ==> exists id :: id in Pool(auths, providers) && Awaited(auths[id], defaultRetry, model, attempt, now)
                                   && now + wait == IsBlocked(auths[id], model, now).next
    ensures retry ==> IsClosest(auths, Pool(auths, providers), defaultRetry, model, attempt, now, wait, true)
    ensures !retry ==> GivenUp(auths, error, attempt, providers, defaultRetry, model, maxWait, now)
  {
    hide Awaited, IsBlocked;
    if maxWait <= 0 { return 0, false; }
    if error.status == 200 { return 0, false; }
    if RequestInvalid(error) { return 0, false; }
    var closest, found := ClosestCooldownWait(auths, providers, defaultRetry, model, attempt, now);
    if !found || closest > maxWait { return 0, false; }
    var id :| id in Pool(auths, providers) && Awaited(auths[id], defaultRetry, model, attempt, now)
              && now + closest == IsBlocked(auths[id], model, now).next;
    AwaitedLater(auths[id], defaultRetry, model, attempt, now);
    return closest, true;
  }

  // ----- the whole request

  /** No credential of the pool asks for more than `most` retries. */
  ghost predicate RetriesAtMost(auths: map<string, Auth>, providers: set<string>, defaultRetry: int, most: nat) {
    forall id :: id in Pool(auths, providers) ==> EffectiveRetry(auths[id], defaultRetry) <= most
  }

  lemma SameRetries(before: map<string, Auth>, after: map<string, Auth>, providers: set<string>, defaultRetry: int, most: nat)
    requires SameSetup(before, after) && RetriesAtMost(before, providers, defaultRetry, most)
    ensures RetriesAtMost(after, providers, defaultRetry, most)
  {
  }

  lemma AnotherAttempt(auths: map<string, Auth>, providers: set<string>, defaultRetry: int, most: nat, model: ModelName, attempt: nat,
                       now: Time)
    requires RetriesAtMost(auths, providers, defaultRetry, most)
    requires exists id :: id in Pool(auths, providers) && Awaited(auths[id], defaultRetry, model, attempt, now)
    ensures attempt < most
  {
  }

  /** Why a request that failed is not tried again. */
  ghost predicate GivenUp(auths: map<string, Auth>, error: ExecError, attempt: nat, providers: set<string>, defaultRetry: int,
                          model: ModelName, maxWait: int, now: Time) {
    || maxWait <= 0 || error.status == 200 || RequestInvalid(error)
    || forall id :: id in Pool(auths, providers) && Awaited(auths[id], defaultRetry, model, attempt, now) ==>
         IsBlocked(auths[id], model, now).next > now + maxWait
  }

  // ----- the course of a request

  /** What the manager holds after a round. */
  function Left(r: Round): map<string, Auth> {
    if r.states == [] then map[] else r.states[|r.states| - 1]
  }

  /** What a request is run with. */
  datatype Settings = Settings(providers: set<string>, model: ModelName, defaultRetry: int, maxRetryCredentials: int, maxWait: int,
                               quotaCooldownDisabled: bool)

  /** A round that failed is followed by another after the shortest wait for a credential
      that may still be tried, if that is within the limit and nobody cancels. */
  ghost predicate Waits(env: Environment, with: Settings, r: Round, wait: nat, attempt: nat) {
    && r.outcome.Stopped? && r.outcome.error.status != 200 && !RequestInvalid(r.outcome.error)
    && 0 < wait <= with.maxWait && !env.cancels(r.end)
    && IsClosest(Left(r), Pool(Left(r), with.providers), with.defaultRetry, with.model, attempt, env.now(r.end), wait, true)
  }

  /** A round begins with the request, or after the wait that follows the round before. */
  ghost predicate Follows(r: Round, before: Option<Round>) {
    match before
    case None => r.start == 0
    case Some(last) => r.start == last.end + 1 && r.states != [] && r.states[0] == Left(last)
  }

  ghost predicate RoundAt(env: Environment, with: Settings, rounds: seq<Round>, waits: seq<nat>, i: nat)
    requires i < |rounds|
  {
    && Traced(env, rounds[i], with.model, with.maxRetryCredentials, with.quotaCooldownDisabled)
    && Follows(rounds[i], if i == 0 then None else Some(rounds[i - 1]))
    && (i < |waits| ==> Waits(env, with, rounds[i], waits[i], i))
  }

  /** The rounds of a request and the waits between them. */
  ghost predicate Course(env: Environment, with: Settings, rounds: seq<Round>, waits: seq<nat>) {
    |waits| <= |rounds| <= |waits| + 1 && forall i :: 0 <= i < |rounds| ==> RoundAt(env, with, rounds, waits, i)
  }

  /** The last round decides: its outcome, given up for one of the listed reasons, or
      cancelled while waiting for the next. */
  ghost predicate Concludes(env: Environment, with: Settings, r: Round, attempt: nat, outcome: Outcome) {
    if r.outcome.Stopped?
       && !GivenUp(Left(r), r.outcome.error, attempt, with.providers, with.defaultRetry, with.model, with.maxWait, env.now(r.end)) then
      outcome == Aborted && env.cancels(r.end)
    else outcome == r.outcome
  }

  function CallsOf(rounds: seq<Round>, model: ModelName): nat {
    if rounds == [] || model == NO_MODEL then 0
    else CallsOf(rounds[..|rounds| - 1], model) + |rounds[|rounds| - 1].picks|
  }

  function Sum(waits: seq<nat>): nat {
    if waits == [] then 0 else Sum(waits[..|waits| - 1]) + waits[|waits| - 1]
  }

  lemma OneMoreRoundRun(env: Environment, with: Settings, rounds: seq<Round>, waits: seq<nat>, r: Round)
    requires Course(env, with, rounds, waits) && |waits| == |rounds|
    requires Traced(env, r, with.model, with.maxRetryCredentials, with.quotaCooldownDisabled)
    requires Follows(r, if rounds == [] then None else Some(rounds[|rounds| - 1]))
    ensures Course(env, with, rounds + [r], waits)
    ensures CallsOf(rounds + [r], with.model) == CallsOf(rounds, with.model) + if with.model == NO_MODEL then 0 else |r.picks|
  {
    hide Traced, Waits, Follows;
    var more := rounds + [r];
    forall i | 0 <= i < |more| ensures RoundAt(env, with, more, waits, i) {
      assert i < |rounds| ==> RoundAt(env, with, rounds, waits, i);
    }
    assert more[..|rounds|] == rounds;
  }

  lemma OneMoreWait(env: Environment, with: Settings, rounds: seq<Round>, waits: seq<nat>, wait: nat)
    requires Course(env, with, rounds, waits) && |rounds| == |waits| + 1 && Waits(env, with, rounds[|waits|], wait, |waits|)
    ensures Course(env, with, rounds, waits + [wait])
    ensures Sum(waits + [wait]) == Sum(waits) + wait
  {
    hide Traced, Waits, Follows;
    var more := waits + [wait];
    forall i | 0 <= i < |rounds| ensures RoundAt(env, with, rounds, more, i) {
      assert RoundAt(env, with, rounds, waits, i);
    }
    assert more[..|waits|] == waits;
  }

  lemma NoRoundYet(env: Environment, with: Settings)
    ensures Course(env, with, [], []) && CallsOf([], with.model) == 0 && Sum([]) == 0
  {
  }

  /** A retry is just what giving up is not. */
  lemma RetryIsNotGivenUp(auths: map<string, Auth>, error: ExecError, attempt: nat, providers: set<string>, defaultRetry: int,
                          model: ModelName, maxWait: int, now: Time, wait: nat)
    requires 0 < wait <= maxWait && error.status != 200 && !RequestInvalid(error)
    requires IsClosest(auths, Pool(auths, providers), defaultRetry, model, attempt, now, wait, true)
    ensures !GivenUp(auths, error, attempt, providers, defaultRetry, model, maxWait, now)
  {
    hide Awaited, IsBlocked;
  }

  /** A round of a request, and what it leaves for the next. */
  method RunRound(m: Manager, env: Environment, start: nat, providers: set<string>, model: ModelName, defaultRetry: int,
                  maxRetryCredentials: int, ghost most: nat)
    returns (outcome: Outcome, called: nat, step: nat, ghost r: Round)
    requires m.Valid() && Proper(env, m.auths, providers) && RetriesAtMost(m.auths, providers, defaultRetry, most)
    modifies m`auths
    ensures m.Valid() && SameSetup(old(m.auths), m.auths)
    ensures Proper(env, m.auths, providers) && RetriesAtMost(m.auths, providers, defaultRetry, most)
    ensures Traced(env, r, model, maxRetryCredentials, m.quotaCooldownDisabled)
    ensures r.start == start && r.outcome == outcome && r.end == step
    ensures r.states != [] && r.states[0] == old(m.auths) && Left(r) == m.auths
    ensures called == (if model == NO_MODEL then 0 else |r.picks|) <= RoundLimit(Pool(old(m.auths), providers), maxRetryCredentials)
    ensures outcome.Done? ==> called > 0 && step > 0 && env.answer(step - 1) == Response
  {
    hide Account, Noted, Pool, Proper, RetriesAtMost, SameSetup, Traced;
    var calls;
    ghost var picks, states;
    outcome, calls, step, picks, states := ExecuteMixedOnce(m, env, start, providers, model, maxRetryCredentials);
    r := Round(start, picks, states, outcome, step);
    TracedStates(env, r, model, maxRetryCredentials, m.quotaCooldownDisabled);
    ProperStays(env, old(m.auths), m.auths, providers);
    SameRetries(old(m.auths), m.auths, providers, defaultRetry, most);
    AccountDone(m.auths, calls, model, outcome);
    called := |calls|;
  }

  /** Execute, over a fixed set of credentials: the rounds and waits that the environment
      calls for. There are at most 1 + most rounds, so the upstream calls and the waiting
      are bounded by the products. */
  method Execute(m: Manager, env: Environment, providers: set<string>, model: ModelName,
                 defaultRetry: int, maxRetryCredentials: int, maxWait: int, ghost most: nat)
    returns (outcome: Outcome, calls: nat, waited: nat, rounds: nat, step: nat, ghost course: seq<Round>, ghost waits: seq<nat>)
    requires m.Valid() && Proper(env, m.auths, providers)
    requires RetriesAtMost(m.auths, providers, defaultRetry, most)
    modifies m`auths
    ensures m.Valid() && SameSetup(old(m.auths), m.auths)
    ensures providers == {} ==> outcome == Stopped(NO_PROVIDER) && course == [] && m.auths == old(m.auths)
    ensures providers != {} ==>
      var with := Settings(providers, model, defaultRetry, maxRetryCredentials, maxWait, m.quotaCooldownDisabled);
      && |course| == |waits| + 1
      && Course(env, with, course, waits) && Concludes(env, with, course[|waits|], |waits|, outcome)
      && course[0].states != [] && course[0].states[0] == old(m.auths) && Left(course[|waits|]) == m.auths && step == course[|waits|].end
    ensures rounds == |course| <= 1 + most && calls == CallsOf(course, model) && waited == Sum(waits)
    ensures calls <= rounds * RoundLimit(Pool(old(m.auths), providers), maxRetryCredentials)
    ensures waited <= (if rounds > 0 then rounds - 1 else 0) * (if maxWait > 0 then maxWait else 0)
    ensures maxWait <= 0 && providers != {} ==> rounds == 1
    ensures outcome.Done? ==> calls > 0 && step > 0 && env.answer(step - 1) == Response
    ensures outcome.Stopped? && providers != {} ==>
      GivenUp(m.auths, outcome.error, rounds - 1, providers, defaultRetry, model, maxWait, env.now(step))
  {
    hide Account, Noted, GivenUp, Course, Waits, Traced, Pool, RequestInvalid;
    hide Proper, RetriesAtMost, Awaited, IsBlocked, SameSetup, EffectiveRetry, IsClosest, CallsOf, Sum;
    ghost var with := Settings(providers, model, defaultRetry, maxRetryCredentials, maxWait, m.quotaCooldownDisabled);
    ghost var limit := RoundLimit(Pool(m.auths, providers), maxRetryCredentials);
    calls, waited, rounds, step, course, waits := 0, 0, 0, 0, [], [];
    SameAsItself(m.auths);
    NoRoundYet(env, with);
    if providers == {} {
      return Stopped(NO_PROVIDER), calls, waited, rounds, step, course, waits;
    }
    var attempt := 0;
    while true
      invariant m.Valid() && SameSetup(old(m.auths), m.auths) && Proper(env, m.auths, providers)
      invariant RetriesAtMost(m.auths, providers, defaultRetry, most)
      invariant attempt <= most && rounds == attempt == |course| == |waits|
      invariant Course(env, with, course, waits) && m.quotaCooldownDisabled == with.quotaCooldownDisabled
      invariant if course == [] then step == 0 && m.auths == old(m.auths)
                else
                  && step == course[|course| - 1].end + 1 && m.auths == Left(course[|course| - 1])
                  && course[0].states != [] && course[0].states[0] == old(m.auths)
      invariant calls == CallsOf(course, model) && waited == Sum(waits)
      invariant calls <= rounds * limit
      invariant waited <= rounds * (if maxWait > 0 then maxWait else 0) && (maxWait <= 0 ==> attempt == 0)
      decreases most - attempt
    {
      ghost var before := m.auths;
      SamePool(old(m.auths), m.auths, providers);
      var called;
      ghost var r;
      outcome, called, step, r := RunRound(m, env, step, providers, model, defaultRetry, maxRetryCredentials, most);
      SetupChain(old(m.auths), before, m.auths);
      OneMoreRoundRun(env, with, course, waits, r);
      calls, rounds, course := calls + called, rounds + 1, course + [r];
      OneMoreRound(rounds - 1, limit);
      if !outcome.Stopped? { return; }
      var now := env.now(step);
      var wait, retry := ShouldRetryAfterError(m.auths, outcome.error, attempt, providers, defaultRetry, model, maxWait, now);
      if !retry { return; }
      RetryIsNotGivenUp(m.auths, outcome.error, attempt, providers, defaultRetry, model, maxWait, now, wait);
      AnotherAttempt(m.auths, providers, defaultRetry, most, model, attempt, now);
      if env.cancels(step) { return Aborted, calls, waited, rounds, step, course, waits; }
      RoundWaits(env, with, r, m.auths, wait, attempt);
      OneMoreWait(env, with, course, waits, wait);
      waits := waits + [wait];
      step := step + 1;
      OneMoreRound(rounds - 1, maxWait);
      waited := waited + wait;
      attempt := attempt + 1;
    }
  }

  lemma TracedStates(env: Environment, r: Round, model: ModelName, limit: int, quotaCooldownDisabled: bool)
    requires Traced(env, r, model, limit, quotaCooldownDisabled)
    ensures |r.states| == |r.picks| + 1
  {
  }

  lemma RoundWaits(env: Environment, with: Settings, r: Round, auths: map<string, Auth>, wait: nat, attempt: nat)
    requires r.outcome.Stopped? && r.outcome.error.status != 200 && !RequestInvalid(r.outcome.error) && 0 < wait <= with.maxWait
    requires Left(r) == auths && !env.cancels(r.end)
    requires IsClosest(auths, Pool(auths, with.providers), with.defaultRetry, with.model, attempt, env.now(r.end), wait, true)
    ensures Waits(env, with, r, wait, attempt)
  {
  }

  lemma AccountDone(auths: map<string, Auth>, calls: seq<string>, model: ModelName, outcome: Outcome)
    requires Account(auths, calls, model, outcome)
    ensures outcome.Done? ==> calls != []
  {
  }

  lemma SameAsItself(auths: map<string, Auth>)
    ensures SameSetup(auths, auths)
  {
  }

  lemma SetupChain(a: map<string, Auth>, b: map<string, Auth>, c: map<string, Auth>)
    requires SameSetup(a, b) && SameSetup(b, c)
    ensures SameSetup(a, c)
  {
  }

  lemma OneMoreRound(rounds: nat, each: int)
    ensures (rounds + 1) * each == rounds * each + each
  {
  }
}
