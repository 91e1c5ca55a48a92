/** MarkResult (conductor_result.go): results change the credentials the manager holds. */
module Results {
  import opened Credentials
  import opened Ordering
  import opened Backoff
  import opened Failures

  /** What the model registry is told about the credential and the model. */
  datatype Notice = Silence | Resume | Suspend(reason: string, overQuota: bool)

  /** Successes resume the model; failures that are no passing fault suspend it, and only
      quota failures count against the quota. */
  function NoticeOf(result: Result): Notice {
    var code := StatusCode(result.error);
    if result.model == NO_MODEL then Silence
    else if result.success then Resume
    else if code == 401 then Suspend("unauthorized", false)
    else if code in {402, 403} then Suspend("payment_required", false)
    else if code == 404 then Suspend("not_found", false)
    else if code == 429 then Suspend("quota", true)
    else Silence
  }

  /** How long a failed model rests: nothing for unknown failures, nothing for transient
      ones and uninstructed quota failures where cooling is disabled. */
  function Rest(level: int, result: Result, disableCooling: bool): nat {
    var code := StatusCode(result.error);
    if code in {401, 402, 403} then 30 * MINUTE
    else if code == 404 then 12 * HOUR
    else if code == 429 then
      if result.retryAfter.Some? then result.retryAfter.value
      else if NextQuotaCooldown(level, disableCooling).cooldown > 0 then NextQuotaCooldown(level, disableCooling).cooldown
      else 0
    else if code in {408, 500, 502, 503, 504} && !disableCooling then MINUTE
    else 0
  }

  /** Whether the failure sets a retry time although the rest is empty. */
  predicate Timestamped(result: Result) {
    StatusCode(result.error) == 429 && result.retryAfter.Some?
  }

  function RetryTime(level: int, result: Result, disableCooling: bool, now: Time): Time {
    var rest := Rest(level, result, disableCooling);
    if rest > 0 || Timestamped(result) then now + rest else 0
  }

  function NextLevel(level: int, result: Result, disableCooling: bool): int {
    if result.retryAfter.Some? then level else NextQuotaCooldown(level, disableCooling).level
  }

  function StateOrFresh(auth: Auth, model: ModelName): ModelState {
    if model in auth.modelStates then auth.modelStates[model] else FRESH
  }

  /** A model's state after a failure of it. */
  function FailedState(state: ModelState, result: Result, disableCooling: bool, now: Time): ModelState {
    var retry := RetryTime(state.quota.backoffLevel, result, disableCooling, now);
    ModelState(
      Status.Error, true, retry,
      if result.error.Some? then result.error else state.lastError,
      if StatusCode(result.error) == 429
        then Quota(true, retry, NextLevel(state.quota.backoffLevel, result, disableCooling)) else state.quota)
  }

  predicate InError(state: ModelState, now: Time) {
    state.lastError.Some? || (state.status.Error? && state.unavailable && (state.nextRetryAfter == 0 || state.nextRetryAfter > now))
  }

  predicate AnyInError(states: States, now: Time) {
    exists model :: model in states && InError(states[model], now)
  }

  /** The credential with the result entered under its model, before adding up. */
  function Entered(auth: Auth, result: Result, disableCooling: bool, now: Time): Auth {
    var state := StateOrFresh(auth, result.model);
    if result.success then
      auth.(modelStates := auth.modelStates[result.model := FRESH])
    else
      auth.(modelStates := auth.modelStates[result.model := FailedState(state, result, disableCooling, now)],
            status := Status.Error,
            lastError := if result.error.Some? then result.error else auth.lastError)
  }

  /** The status codes that set a retry time. */
  predicate IsListed(code: int) {
    code in {401, 402, 403, 404, 429, 408, 500, 502, 503, 504}
  }

  /** A result about the credential as a whole. */
  function MarkedWhole(auth: Auth, result: Result, disableCooling: bool, now: Time): Auth {
    if result.success then
      auth.(unavailable := false, status := Active, quota := NO_QUOTA, lastError := None, nextRetryAfter := 0)
    else
      var code := StatusCode(result.error);
      var retry := RetryTime(auth.quota.backoffLevel, result, disableCooling, now);
      auth.(unavailable := true, status := Status.Error,
            lastError := if result.error.Some? then result.error else auth.lastError,
            nextRetryAfter := if IsListed(code) then retry else auth.nextRetryAfter,
            quota := if code == 429 then Quota(true, retry, NextLevel(auth.quota.backoffLevel, result, disableCooling)) else auth.quota)
  }

  /** `after` is what the result makes of the credential. */
  ghost predicate IsMarked(before: Auth, after: Auth, result: Result, disableCooling: bool, now: Time) {
    if result.model == NO_MODEL then
      after == MarkedWhole(before, result, disableCooling, now)
    else
      var entered := Entered(before, result, disableCooling, now);
      && IsAggregate(entered, after.(status := entered.status, lastError := entered.lastError), now)
      && if result.success && !AnyInError(after.modelStates, now) then
           after.status == Active && after.lastError == None
         else
           after.status == entered.status && after.lastError == entered.lastError
  }

  // ----- what results mean for blocking

  predicate Enabled(auth: Auth) {
    !auth.disabled && !auth.status.Disabled?
  }

  lemma MarkedStates(before: Auth, after: Auth, result: Result, disableCooling: bool, now: Time)
    requires IsMarked(before, after, result, disableCooling, now) && result.model != NO_MODEL
    ensures after.modelStates == AllLapsed(Entered(before, result, disableCooling, now).modelStates, now)
    ensures after.disabled == before.disabled && (after.status.Disabled? ==> before.status.Disabled?)
  {
  }

  /** A failed model is blocked for exactly its rest. */
  lemma FailureBlocks(before: Auth, after: Auth, result: Result, disableCooling: bool, now: Time, t: Time)
    requires IsMarked(before, after, result, disableCooling, now) && result.model != NO_MODEL && !result.success
    requires !before.disabled && t >= now > 0
    ensures IsBlocked(after, result.model, t).blocked
            <==> t < now + Rest(StateOrFresh(before, result.model).quota.backoffLevel, result, disableCooling)
  {
    hide IsAggregate, Rest;
    MarkedStates(before, after, result, disableCooling, now);
  }

  /** These rests in nanoseconds: half an hour, twelve hours, what upstream asks for, and a
      minute. */
  lemma BlockedFor(before: Auth, after: Auth, result: Result, disableCooling: bool, now: Time, t: Time)
    requires IsMarked(before, after, result, disableCooling, now) && result.model != NO_MODEL && !result.success
    requires !before.disabled && t >= now > 0
    ensures var code, blocked := StatusCode(result.error), IsBlocked(after, result.model, t).blocked;
            && (code in {401, 402, 403} ==> (blocked <==> t < now + 1_800_000_000_000))
            && (code == 404 ==> (blocked <==> t < now + 43_200_000_000_000))
            && (code == 429 && result.retryAfter.Some? ==> (blocked <==> t < now + result.retryAfter.value))
            && (code == 429 && result.retryAfter.None? && disableCooling ==> !blocked)
            && (code in {408, 500, 502, 503, 504} ==> (blocked <==> !disableCooling && t < now + 60_000_000_000))
            && (code !in {401, 402, 403, 404, 408, 429, 500, 502, 503, 504} ==> !blocked)
  {
    hide IsMarked, IsBlocked;
    FailureBlocks(before, after, result, disableCooling, now, t);
  }

  /** While it is blocked this is a cooldown exactly after a quota failure, the last one or
      one that no success has made up for. */
  lemma BlockedBecause(before: Auth, after: Auth, result: Result, disableCooling: bool, now: Time, t: Time)
    requires IsMarked(before, after, result, disableCooling, now) && result.model != NO_MODEL && !result.success
    requires !before.disabled && t >= now > 0 && IsBlocked(after, result.model, t).blocked
    ensures IsBlocked(after, result.model, t).reason
         == if StatusCode(result.error) == 429 || StateOrFresh(before, result.model).quota.exceeded then Cooldown else Other
  {
    hide IsAggregate, Rest;
    MarkedStates(before, after, result, disableCooling, now);
  }

  /** The error is shown with the model and with the credential. */
  lemma ErrorShown(before: Auth, after: Auth, result: Result, disableCooling: bool, now: Time)
    requires IsMarked(before, after, result, disableCooling, now) && result.model != NO_MODEL && !result.success
    ensures after.status == Status.Error && result.model in after.modelStates && after.modelStates[result.model].status == Status.Error
    ensures result.error.Some? ==> after.lastError == result.error && after.modelStates[result.model].lastError == result.error
  {
    hide IsAggregate;
    MarkedStates(before, after, result, disableCooling, now);
  }

  /** A success clears the error of its model, and the credential's own when no model it
      tracks has an error left or rests after one. */
  lemma ErrorCleared(before: Auth, after: Auth, result: Result, disableCooling: bool, now: Time)
    requires IsMarked(before, after, result, disableCooling, now) && result.model != NO_MODEL && result.success
    ensures result.model in after.modelStates && after.modelStates[result.model].lastError == None
    ensures if exists model :: model in after.modelStates && HasError(after.modelStates[model], now)
            then after.status == before.status && after.lastError == before.lastError
            else after.status == Active && after.lastError == None
  {
    hide IsAggregate;
    MarkedStates(before, after, result, disableCooling, now);
    forall state: ModelState ensures InError(state, now) <==> HasError(state, now) {}
  }

  /** An error that is on record, or one that the model still rests after. */
  ghost predicate HasError(state: ModelState, now: Time) {
    || state.lastError != None
    || (state.status == Status.Error && state.unavailable && !(0 < state.nextRetryAfter <= now))
  }

  /** The credential's own setting decides, and the manager's where it has none. */
  lemma CoolingRule(auth: Auth, managers: bool)
    ensures CoolingDisabled(auth, managers) <==> auth.coolingOverride == Some(true) || (auth.coolingOverride == None && managers)
  {
  }

  /** A success frees its model at once and for good. */
  lemma SuccessFrees(before: Auth, after: Auth, result: Result, disableCooling: bool, now: Time, t: Time)
    requires IsMarked(before, after, result, disableCooling, now) && result.model != NO_MODEL && result.success && Enabled(before)
    ensures !IsBlocked(after, result.model, t).blocked
  {
    hide IsAggregate;
    MarkedStates(before, after, result, disableCooling, now);
  }

  /** A result about one model leaves the verdicts on every model with a state of its own
      as they were. */
  lemma OthersUntouched(before: Auth, after: Auth, result: Result, disableCooling: bool, now: Time, other: ModelName, t: Time)
    requires IsMarked(before, after, result, disableCooling, now) && result.model != NO_MODEL && Enabled(before)
    requires other != NO_MODEL && other != result.model && (other in before.modelStates || Canonical(other) != result.model) && t >= now
    ensures IsBlocked(after, other, t) == IsBlocked(before, other, t)
  {
    hide IsAggregate, FailedState;
    MarkedStates(before, after, result, disableCooling, now);
  }

  /** A failure about the credential as a whole blocks it for exactly the rest its status
      code calls for; an unlisted code leaves the retry time that was there. */
  lemma WholeFailureBlocks(before: Auth, after: Auth, result: Result, disableCooling: bool, now: Time, t: Time)
    requires IsMarked(before, after, result, disableCooling, now) && result.model == NO_MODEL && !result.success
    requires !before.disabled && t >= now > 0
    ensures IsBlocked(after, NO_MODEL, t).blocked
            <==> t < (if IsListed(StatusCode(result.error)) then now + Rest(before.quota.backoffLevel, result, disableCooling)
                      else before.nextRetryAfter)
  {
    hide NextQuotaCooldown;
  }

  /** A success about the credential as a whole frees it at once and for good. */
  lemma WholeSuccessFrees(before: Auth, after: Auth, result: Result, disableCooling: bool, now: Time, t: Time)
    requires IsMarked(before, after, result, disableCooling, now) && result.model == NO_MODEL && result.success && !before.disabled
    ensures !IsBlocked(after, NO_MODEL, t).blocked
  {
  }

  /** Either way the verdicts on its tracked models follow its models' own states. */
  lemma WholeLeavesModels(before: Auth, after: Auth, result: Result, disableCooling: bool, now: Time, model: ModelName, t: Time)
    requires IsMarked(before, after, result, disableCooling, now) && result.model == NO_MODEL && model != NO_MODEL
    requires Enabled(before)
    ensures IsBlocked(after, model, t) == IsBlocked(before, model, t)
  {
  }

  /** After a failure about the credential as a whole it is punctual unless an earlier
      quota cooldown outlasts the retry time now set. */
  lemma WholePunctualAfterFailure(before: Auth, after: Auth, result: Result, disableCooling: bool, now: Time)
    requires IsMarked(before, after, result, disableCooling, now) && result.model == NO_MODEL && !result.success
    requires !before.disabled && now > 0
    ensures var code, rest := StatusCode(result.error), Rest(before.quota.backoffLevel, result, disableCooling);
            Punctual(after, NO_MODEL) <==>
              if !IsListed(code) then before.nextRetryAfter == 0 || before.quota.nextRecoverAt <= before.nextRetryAfter
              else code == 429 || rest == 0 || before.quota.nextRecoverAt <= now + rest
  {
    hide NextQuotaCooldown;
  }

  /** After a result about a model the credential as a whole is blocked exactly while all
      its tracked models are; the result's own model is one that is not switched off. */
  lemma WholeFollowsModels(before: Auth, after: Auth, result: Result, disableCooling: bool, now: Time, t: Time)
    requires IsMarked(before, after, result, disableCooling, now) && result.model != NO_MODEL && Enabled(before) && t >= now
    ensures IsBlocked(after, NO_MODEL, t).blocked <==> AllDown(after.modelStates, t)
  {
    var entered := Entered(before, result, disableCooling, now);
    assert !entered.modelStates[result.model].status.Disabled?;
    BlockedTogether(entered, after.(status := entered.status, lastError := entered.lastError), now, result.model, t);
  }

  /** After a failure of a model its snapshot is punctual unless a quota cooldown from an
      earlier failure outlasts the new rest: a transient error that arrives while a longer
      quota cooldown runs shortens the retry time and leaves the recovery time. */
  lemma PunctualAfterFailure(before: Auth, after: Auth, result: Result, disableCooling: bool, now: Time)
    requires IsMarked(before, after, result, disableCooling, now) && result.model != NO_MODEL && !result.success
    requires !before.disabled && now > 0
    ensures var state := StateOrFresh(before, result.model);
            var rest := Rest(state.quota.backoffLevel, result, disableCooling);
            Punctual(after, result.model) <==>
              StatusCode(result.error) == 429 || rest == 0 || state.quota.nextRecoverAt <= now + rest
  {
    hide IsAggregate, Rest;
    MarkedStates(before, after, result, disableCooling, now);
    RestOfNone(StateOrFresh(before, result.model).quota.backoffLevel, result, disableCooling);
  }

  lemma RestOfNone(level: int, result: Result, disableCooling: bool)
    ensures Timestamped(result) ==> Rest(level, result, disableCooling) == result.retryAfter.value
  {
  }

  // ----- backoff levels over all runs

  predicate LevelBounded(quota: Quota) {
    0 <= quota.backoffLevel <= TOP_LEVEL
  }

  ghost predicate LevelsBounded(auth: Auth) {
    && LevelBounded(auth.quota)
    && forall model :: model in auth.modelStates ==> LevelBounded(auth.modelStates[model].quota)
  }

  lemma AggregateKeepsLevels(before: Auth, after: Auth, now: Time)
    requires IsAggregate(before, after, now) && LevelsBounded(before)
    ensures LevelsBounded(after)
  {
  }

  /** Results never take a backoff level out of 0..11. */
  lemma MarkedKeepsLevels(before: Auth, after: Auth, result: Result, disableCooling: bool, now: Time)
    requires IsMarked(before, after, result, disableCooling, now) && LevelsBounded(before)
    ensures LevelsBounded(after)
  {
    var level := if result.model == NO_MODEL then before.quota.backoffLevel else StateOrFresh(before, result.model).quota.backoffLevel;
    LevelsStay(level, disableCooling);
    hide NextQuotaCooldown, IsAggregate;
    if result.model != NO_MODEL {
      var entered := Entered(before, result, disableCooling, now);
      AggregateKeepsLevels(entered, after.(status := entered.status, lastError := entered.lastError), now);
    }
  }

  predicate IsQuotaFailure(result: Result, model: ModelName) {
    result.model == model && !result.success && StatusCode(result.error) == 429 && result.retryAfter.None?
  }

  function LevelOf(auth: Auth, model: ModelName): int {
    StateOrFresh(auth, model).quota.backoffLevel
  }

  lemma QuotaFailureClimbs(before: Auth, after: Auth, result: Result, now: Time, level: nat, k: nat)
    requires IsMarked(before, after, result, false, now) && result.model != NO_MODEL && IsQuotaFailure(result, result.model)
    requires level <= TOP_LEVEL && LevelOf(before, result.model) == Least(level + k, TOP_LEVEL)
    ensures Rest(LevelOf(before, result.model), result, false) == Capped(level + k)
    ensures LevelOf(after, result.model) == Least(level + k + 1, TOP_LEVEL)
  {
    hide IsAggregate, NextQuotaCooldown;
    MarkedStates(before, after, result, false, now);
    Climb(level, k);
    Climb(level, k + 1);
    CooldownAfter(level, k);
    Pow2Grows(0, level + k);
  }

  /** A result that is not about the model leaves its level alone. */
  lemma OthersKeepLevel(before: Auth, after: Auth, result: Result, disableCooling: bool, now: Time, model: ModelName)
    requires IsMarked(before, after, result, disableCooling, now) && result.model != model && model != NO_MODEL
    ensures LevelOf(after, model) == LevelOf(before, model)
  {
    hide IsAggregate, FailedState;
    if result.model != NO_MODEL {
      MarkedStates(before, after, result, disableCooling, now);
    }
  }

  /** The quota failures of the model among the first `k` results. */
  function FailuresOf(results: seq<Result>, model: ModelName, k: nat): nat
    requires k <= |results|
  {
    if k == 0 then 0 else FailuresOf(results, model, k - 1) + if IsQuotaFailure(results[k - 1], model) then 1 else 0
  }

  /** A run of results whose only results about the model are quota failures, with any
      results about other models or the whole credential between them: the n-th quota
      failure rests the model for min(2^(level + n) s, 30 min). */
  lemma {:induction false} QuotaFailuresInARow(auths: seq<Auth>, results: seq<Result>, times: seq<Time>, model: ModelName, k: nat)
    requires |auths| == |results| + 1 && |times| == |results| && model != NO_MODEL && k < |results|
    requires 0 <= LevelOf(auths[0], model) <= TOP_LEVEL
    requires forall i :: 0 <= i < |results| ==> IsQuotaFailure(results[i], model) || results[i].model != model
    requires forall i :: 0 <= i < |results| ==> IsMarked(auths[i], auths[i + 1], results[i], false, times[i])
    ensures LevelOf(auths[k], model) == Least(LevelOf(auths[0], model) + FailuresOf(results, model, k), TOP_LEVEL)
    ensures IsQuotaFailure(results[k], model) ==>
              Rest(LevelOf(auths[k], model), results[k], false) == Capped(LevelOf(auths[0], model) + FailuresOf(results, model, k))
  {
    hide IsMarked, LevelOf, Rest;
    var level := LevelOf(auths[0], model);
    if k > 0 {
      QuotaFailuresInARow(auths, results, times, model, k - 1);
      if IsQuotaFailure(results[k - 1], model) {
        QuotaFailureClimbs(auths[k - 1], auths[k], results[k - 1], times[k - 1], level, FailuresOf(results, model, k - 1));
      } else {
        OthersKeepLevel(auths[k - 1], auths[k], results[k - 1], false, times[k - 1], model);
      }
    }
    if IsQuotaFailure(results[k], model) {
      QuotaFailureClimbs(auths[k], auths[k + 1], results[k], times[k], level, FailuresOf(results, model, k));
    }
  }

  // ----- the manager

  class Manager {
    var auths: map<string, Auth>
    var quotaCooldownDisabled: bool

    ghost predicate Valid()
      reads this
    {
      forall id :: id in auths ==> LevelsBounded(auths[id])
    }

    constructor (quotaCooldownDisabled: bool)
      ensures Valid() && auths == map[] && this.quotaCooldownDisabled == quotaCooldownDisabled
    {
      auths, this.quotaCooldownDisabled := map[], quotaCooldownDisabled;
    }

    method MarkResult(result: Result, now: Time) returns (notice: Notice)
      requires Valid() && now > 0
      modifies `auths
      ensures Valid()
      ensures if result.authID == "" || result.authID !in old(auths) then auths == old(auths) && notice == Silence
              else
                && result.authID in auths
                && auths == old(auths)[result.authID := auths[result.authID]]
                && IsMarked(old(auths)[result.authID], auths[result.authID], result,
                            CoolingDisabled(old(auths)[result.authID], quotaCooldownDisabled), now)
                && notice == NoticeOf(result)
    {
      hide LevelsBounded, IsAggregate, Entered;
      notice := Silence;
      if result.authID == "" || result.authID !in auths { return; }
      var auth := auths[result.authID];
      ghost var disable := CoolingDisabled(auth, quotaCooldownDisabled);
      var marked := auth;
      if result.success {
        marked := MarkSuccess(auth, result, disable, now);
        notice := if result.model != NO_MODEL then Resume else Silence;
      } else if result.model != NO_MODEL {
        marked, notice := MarkModelFailure(auth, result, now);
      } else {
        marked := ApplyAuthFailureState(auth, result, now);
      }
      MarkedKeepsLevels(auth, marked, result, disable, now);
      auths := auths[result.authID := marked];
    }

    static method MarkSuccess(auth: Auth, result: Result, ghost disable: bool, now: Time) returns (marked: Auth)
      requires result.success
      ensures IsMarked(auth, marked, result, disable, now)
    {
      hide IsAggregate, AnyInError;
      marked := auth;
      if result.model != NO_MODEL {
        var state := EnsureModelState(auth, result.model);
        state := state.(unavailable := false, status := Active, nextRetryAfter := 0, lastError := None, quota := NO_QUOTA);
        marked := marked.(modelStates := marked.modelStates[result.model := state]);
        assert marked == Entered(auth, result, disable, now) && result.model in marked.modelStates;
        marked := UpdateAggregatedAvailability(marked, now);
        ghost var aggregate := marked;
        var failing := HasModelError(marked, now);
        if !failing {
          marked := marked.(lastError := None, status := Active);
        }
        AggregateKeepsStatus(Entered(auth, result, disable, now), aggregate, now);
        assert marked.(status := auth.status, lastError := auth.lastError) == aggregate;
      } else {
        marked := marked.(unavailable := false, status := Active, quota := NO_QUOTA, lastError := None, nextRetryAfter := 0);
      }
    }

    static method EnsureModelState(auth: Auth, model: ModelName) returns (state: ModelState)
      ensures state == StateOrFresh(auth, model)
    {
      if model in auth.modelStates { return auth.modelStates[model]; }
      state := ModelState(Active, false, 0, None, Quota(false, 0, 0));
    }

    static method HasModelError(auth: Auth, now: Time) returns (failing: bool)
      ensures failing <==> AnyInError(auth.modelStates, now)
    {
      var todo := auth.modelStates.Keys;
      while todo != {}
        invariant todo <= auth.modelStates.Keys
        invariant forall model :: model in auth.modelStates && model !in todo ==> !InError(auth.modelStates[model], now)
      {
        ghost var some := Witness(todo);
        var model :| model in todo;
        var state := auth.modelStates[model];
        if state.lastError.Some? { return true; }
        if state.status.Error? {
          if state.unavailable && (state.nextRetryAfter == 0 || state.nextRetryAfter > now) { return true; }
        }
        todo := todo - {model};
      }
      return false;
    }

    method MarkModelFailure(auth: Auth, result: Result, now: Time) returns (marked: Auth, notice: Notice)
      requires !result.success && result.model != NO_MODEL && now > 0
      ensures IsMarked(auth, marked, result, CoolingDisabled(auth, quotaCooldownDisabled), now)
      ensures notice == NoticeOf(result)
    {
      hide IsAggregate, NextQuotaCooldown;
      var disable := CoolingDisabled(auth, quotaCooldownDisabled);
      var state := EnsureModelState(auth, result.model);
      ghost var was := state;
      marked := auth;
      state := state.(unavailable := true, status := Status.Error);
      if result.error.Some? {
        state := state.(lastError := result.error);
        marked := marked.(lastError := result.error);
      }
      state, notice := RestState(state, result, disable, now);
      assert state == FailedState(was, result, disable, now);
      marked := marked.(modelStates := marked.modelStates[result.model := state], status := Status.Error);
      assert marked == Entered(auth, result, disable, now) && result.model in marked.modelStates;
      marked := UpdateAggregatedAvailability(marked, now);
      AggregateKeepsStatus(Entered(auth, result, disable, now), marked, now);
    }

    static method RestState(state: ModelState, result: Result, disable: bool, now: Time) returns (r: ModelState, notice: Notice)
      requires !result.success && result.model != NO_MODEL
      requires now > 0 && state.unavailable && state.status.Error? && (result.error.Some? ==> state.lastError == result.error)
      ensures r == FailedState(state, result, disable, now)
      ensures notice == NoticeOf(result)
    {
      hide NextQuotaCooldown;
      notice := Silence;
      r := state;
      var statusCode := StatusCode(result.error);
      match statusCode {
        case 401 =>
          r := r.(nextRetryAfter := now + 30 * MINUTE);
          notice := Suspend("unauthorized", false);
        case 402 =>
          r := r.(nextRetryAfter := now + 30 * MINUTE);
          notice := Suspend("payment_required", false);
        case 403 =>
          r := r.(nextRetryAfter := now + 30 * MINUTE);
          notice := Suspend("payment_required", false);
        case 404 =>
          r := r.(nextRetryAfter := now + 12 * HOUR);
          notice := Suspend("not_found", false);
        case 429 =>
          var next: Time := 0;
          var backoffLevel := r.quota.backoffLevel;
          if result.retryAfter.Some? {
            next := now + result.retryAfter.value;
          } else {
            var step := NextQuotaCooldown(backoffLevel, disable);
            if step.cooldown > 0 {
              next := now + step.cooldown;
            }
            backoffLevel := step.level;
          }
          r := r.(nextRetryAfter := next, quota := Quota(true, next, backoffLevel));
          notice := Suspend("quota", true);
        case _ =>
          if statusCode == 408 || statusCode == 500 || statusCode == 502 || statusCode == 503 || statusCode == 504 {
            r := r.(nextRetryAfter := if disable then 0 else now + MINUTE);
          } else {
            r := r.(nextRetryAfter := 0);
          }
      }
    }

    method ApplyAuthFailureState(auth: Auth, result: Result, now: Time) returns (r: Auth)
      requires !result.success && now > 0
      ensures r == MarkedWhole(auth, result, CoolingDisabled(auth, quotaCooldownDisabled), now)
    {
      hide NextQuotaCooldown;
      var disable := CoolingDisabled(auth, quotaCooldownDisabled);
      r := auth.(unavailable := true, status := Status.Error);
      if result.error.Some? {
        r := r.(lastError := result.error);
      }
      var statusCode := StatusCode(result.error);
      if statusCode == 401 || statusCode == 402 || statusCode == 403 {
        r := r.(nextRetryAfter := now + 30 * MINUTE);
      } else if statusCode == 404 {
        r := r.(nextRetryAfter := now + 12 * HOUR);
      } else if statusCode == 429 {
        var next: Time := 0;
        var level := r.quota.backoffLevel;
        if result.retryAfter.Some? {
          next := now + result.retryAfter.value;
        } else {
          var step := NextQuotaCooldown(level, disable);
          if step.cooldown > 0 {
            next := now + step.cooldown;
          }
          level := step.level;
        }
        r := r.(nextRetryAfter := next, quota := Quota(true, next, level));
      } else if statusCode == 408 || statusCode == 500 || statusCode == 502 || statusCode == 503 || statusCode == 504 {
        r := r.(nextRetryAfter := if disable then 0 else now + MINUTE);
      }
    }
  }

  lemma AggregateKeepsStatus(before: Auth, after: Auth, now: Time)
    requires IsAggregate(before, after, now)
    ensures after.status == before.status && after.lastError == before.lastError
    ensures after.(status := before.status, lastError := before.lastError) == after
  {
  }
}
